/** The REST location handlers for professionals: `updateLocation`, which checks the
    coordinates and writes the current location and a bounded, newest-first history,
    and `getNearbyProfessionals`, a filtered, distance-ordered, limited query. */
module ProfessionalLocation {
  import opened Wrappers
  import opened Records
  import Text
  import Ordering

  /** `!x` on a number: an absent value or zero. */
  predicate Falsy(x: Option<real>) {
    x.None? || x.value == 0.0
  }

  /** The coordinate check of `updateLocation`: both values truthy (so neither is
      0), latitude within [-90, 90] and longitude within [-180, 180]. */
  predicate CoordinatesAccepted(latitude: Option<real>, longitude: Option<real>) {
    && !Falsy(latitude) && !Falsy(longitude)
    && -90.0 <= latitude.value <= 90.0
    && -180.0 <= longitude.value <= 180.0
  }

  /** The equator and the prime meridian are rejected although they are in range. */
  lemma ZeroRejected(latitude: real, longitude: real)
    ensures !CoordinatesAccepted(Some(0.0), Some(longitude))
    ensures !CoordinatesAccepted(Some(latitude), Some(0.0))
  {
  }

  /** `locationHistory` keeps the newest 100 entries. */
  const HistoryCapacity: nat := 100

  /** `$push` with `$position: 0` and `$slice: 100`: the entry goes in front and the
      history is cut to its first 100 entries, so the oldest ones drop. */
  function PushHistory(h: seq<HistoryEntry>, e: HistoryEntry): (r: seq<HistoryEntry>)
    ensures |r| == if |h| + 1 < HistoryCapacity then |h| + 1 else HistoryCapacity
    ensures r[0] == e
    ensures r[1..] == h[..|r| - 1]
  {
    Ordering.Take([e] + h, HistoryCapacity)
  }

  function Reversed<T>(s: seq<T>): (r: seq<T>)
    ensures |r| == |s|
    ensures forall k :: 0 <= k < |s| ==> r[k] == s[|s| - 1 - k]
  {
    if s == [] then [] else Reversed(s[1..]) + [s[0]]
  }

  /** A run of updates, oldest first. */
  function PushAll(h: seq<HistoryEntry>, es: seq<HistoryEntry>): seq<HistoryEntry>
    decreases |es|
  {
    if es == [] then h else PushAll(PushHistory(h, es[0]), es[1..])
  }

  lemma TakeTake<T>(a: seq<T>, b: seq<T>, n: nat)
    ensures Ordering.Take(a + Ordering.Take(b, n), n) == Ordering.Take(a + b, n)
  {
    var l := Ordering.Take(a + b, n);
    assert forall k :: 0 <= k < |l| ==> Ordering.Take(a + Ordering.Take(b, n), n)[k] == l[k];
  }

  /** After any run of updates on a stored history (never more than 100 entries),
      the history is the newest 100 entries of all, newest first. */
  lemma {:induction false} PushAllNewestFirst(h: seq<HistoryEntry>, es: seq<HistoryEntry>)
    requires |h| <= HistoryCapacity
    ensures PushAll(h, es) == Ordering.Take(Reversed(es) + h, HistoryCapacity)
    decreases |es|
  {
    if es == [] {
    } else {
      var h' := PushHistory(h, es[0]);
      PushAllNewestFirst(h', es[1..]);
      TakeTake(Reversed(es[1..]), [es[0]] + h, HistoryCapacity);
      assert Reversed(es) == Reversed(es[1..]) + [es[0]];
      assert Reversed(es[1..]) + ([es[0]] + h) == Reversed(es) + h;
    }
  }

  /** The body of a location update; an absent field is `None`. */
  datatype LocationUpdate = LocationUpdate(
    latitude: Option<real>,
    longitude: Option<real>,
    accuracy: Option<real>,
    heading: Option<real>,
    speed: Option<real>,
    isAvailable: Option<bool>)

  /** A `$set` path whose value is `undefined` is dropped from the update, so an
      absent reading keeps the stored one. */
  function Given(reading: Option<real>, stored: Option<real>): (v: Option<real>)
    ensures reading.Some? ==> v == reading
    ensures reading.None? ==> v == stored
  {
    if reading.Some? then reading else stored
  }

  /** The record after an accepted update at `now`: the point stored as
      `[longitude, latitude]`, each of accuracy, heading and speed taken from the
      body when given and kept otherwise, the time stamped, `isAvailable ?? true`,
      online, and the same point pushed on the history as a `gps` entry. The rest of
      the location (the socket handler's `coordinates`, `updatedAt`) is kept. */
  function Located(p: Professional, u: LocationUpdate, now: Time): (q: Professional)
    requires u.latitude.Some? && u.longitude.Some?
    ensures q.currentLocation.Some?
    ensures var stored := p.currentLocation.GetOr(NoLocation); var loc := q.currentLocation.value;
      && loc.location == Some([u.longitude.value, u.latitude.value])
      && (u.accuracy.Some? ==> loc.accuracy == u.accuracy) && (u.accuracy.None? ==> loc.accuracy == stored.accuracy)
      && (u.heading.Some? ==> loc.heading == u.heading) && (u.heading.None? ==> loc.heading == stored.heading)
      && (u.speed.Some? ==> loc.speed == u.speed) && (u.speed.None? ==> loc.speed == stored.speed)
      && loc.timestamp == Some(now)
      && loc.coordinates == stored.coordinates && loc.updatedAt == stored.updatedAt
    ensures q.currentLocation.value.isAvailable == Some(u.isAvailable.None? || u.isAvailable.value)
    ensures q.isOnline && q.lastLocationUpdate == Some(now)
    ensures q.locationHistory
            == PushHistory(p.locationHistory, HistoryEntry([u.longitude.value, u.latitude.value], u.accuracy, now, "gps"))
    ensures q.(currentLocation := p.currentLocation, isOnline := p.isOnline,
               lastLocationUpdate := p.lastLocationUpdate, locationHistory := p.locationHistory) == p
  {
    var point := [u.longitude.value, u.latitude.value];
    var loc := p.currentLocation.GetOr(NoLocation);
    p.(currentLocation := Some(loc.(location := Some(point), accuracy := Given(u.accuracy, loc.accuracy),
                                    heading := Given(u.heading, loc.heading), speed := Given(u.speed, loc.speed),
                                    timestamp := Some(now), isAvailable := Some(u.isAvailable.GetOr(true)))),
       lastLocationUpdate := Some(now),
       isOnline := true,
       locationHistory := PushHistory(p.locationHistory, HistoryEntry(point, u.accuracy, now, "gps")))
  }

  /** `updateLocation`: 401 without a professional id, 400 for rejected coordinates,
      404 for an unknown id, each with no write; otherwise the updated record. */
  method UpdateLocation(db: Db, professionalId: Option<Id>, u: LocationUpdate, now: Time) returns (r: Result<Professional>)
    modifies db`professionals
    ensures !Present(professionalId) ==>
              r == Err(Http(401, "Authentication required")) && db.professionals == old(db.professionals)
    ensures Present(professionalId) && !CoordinatesAccepted(u.latitude, u.longitude) ==>
              r == Err(Http(400, "Invalid coordinates")) && db.professionals == old(db.professionals)
    ensures Present(professionalId) && CoordinatesAccepted(u.latitude, u.longitude)
            && professionalId.value !in old(db.professionals) ==>
              r == Err(Http(404, "Professional not found")) && db.professionals == old(db.professionals)
    ensures Present(professionalId) && CoordinatesAccepted(u.latitude, u.longitude)
            && professionalId.value in old(db.professionals) ==>
              var q := Located(old(db.professionals[professionalId.value]), u, now);
              r == Ok(q) && db.professionals == old(db.professionals)[professionalId.value := q]
  {
    if !Present(professionalId) {
      return Err(Http(401, "Authentication required"));
    }
    if !CoordinatesAccepted(u.latitude, u.longitude) {
      return Err(Http(400, "Invalid coordinates"));
    }
    var id := professionalId.value;
    if id !in db.professionals {
      return Err(Http(404, "Professional not found"));
    }
    var q := Located(db.professionals[id], u, now);
    db.professionals := db.professionals[id := q];
    r := Ok(q);
  }

  /** The query string of `getNearbyProfessionals`; values are text except the
      radius, which `parseInt` has read. */
  datatype NearbyQuery = NearbyQuery(
    latitude: Option<string>,
    longitude: Option<string>,
    radius: Option<int>,
    specializations: Option<string>)

  const DefaultRadius: int := 5000
  const NearbyLimit: nat := 50

  function RadiusOf(q: NearbyQuery): int {
    q.radius.GetOr(DefaultRadius)
  }

  /** A non-empty `specializations` is split on commas into an any-of list. */
  function Wanted(q: NearbyQuery): (w: Option<seq<string>>)
    ensures w.Some? <==> Present(q.specializations)
    ensures w.Some? ==> Text.Join(w.value, ',') == q.specializations.value
  {
    if Present(q.specializations) then
      Text.JoinSplit(q.specializations.value, ',');
      Some(Text.Split(q.specializations.value, ','))
    else None
  }

  /** The query's conditions on one candidate: a stored point within the radius,
      `currentLocation.isAvailable` true, online, verified, and a wanted
      specialization when a list was given. */
  predicate IsNearby(c: Candidate, radius: int, wanted: Option<seq<string>>) {
    && c.pro.currentLocation.Some?
    && c.pro.currentLocation.value.location.Some?
    && c.pro.currentLocation.value.isAvailable == Some(true)
    && c.pro.isOnline
    && c.pro.status == Verified
    && c.distance <= radius
    && (wanted.Some? ==> exists k :: 0 <= k < |c.pro.specializations| && c.pro.specializations[k] in wanted.value)
  }

  /** `$near` with `$maxDistance` and `.limit(50)`: the matching candidates,
      nearest first, at most 50. */
  function NearbySelection(q: NearbyQuery, candidates: seq<Candidate>): (r: seq<Candidate>)
    ensures |r| <= NearbyLimit
    ensures forall k :: 0 <= k < |r| ==> r[k] in candidates && IsNearby(r[k], RadiusOf(q), Wanted(q))
    ensures forall i, j :: 0 <= i < j < |r| ==> r[i].distance <= r[j].distance
  {
    Records.CloserOrSameIsOrder();
    var radius, wanted := RadiusOf(q), Wanted(q);
    var near := (c: Candidate) => IsNearby(c, radius, wanted);
    Ordering.SelectFacts(candidates, near, Records.CloserOrSame, NearbyLimit);
    Ordering.Take(Ordering.Sort(Ordering.Filter(candidates, near), Records.CloserOrSame), NearbyLimit)
  }

  /** No nearer match is left out: under 50 results every match is listed, and with
      50 every match nearer than the last one listed is among them. */
  lemma NearbySelectionNearest(q: NearbyQuery, candidates: seq<Candidate>)
    ensures var r := NearbySelection(q, candidates);
      && (|r| < NearbyLimit ==>
            forall c :: c in candidates && IsNearby(c, RadiusOf(q), Wanted(q)) ==> c in r)
      && (|r| == NearbyLimit ==>
            forall c :: c in candidates && IsNearby(c, RadiusOf(q), Wanted(q)) && c.distance < r[|r| - 1].distance ==> c in r)
  {
    Records.CloserOrSameIsOrder();
    var radius, wanted := RadiusOf(q), Wanted(q);
    var matching := Ordering.Filter(candidates, (c: Candidate) => IsNearby(c, radius, wanted));
    Ordering.TopBest(matching, Records.CloserOrSame, NearbyLimit);
    var r := NearbySelection(q, candidates);
    forall c | c in candidates && IsNearby(c, radius, wanted)
      ensures c in matching && c in multiset(matching)
    {
    }
  }

  /** One listed professional: id, name, specializations, location, distance and
      `ratings.average || 0`. The distance is the candidate's distance in metres, the
      measure the query filters and orders by; the response reports the haversine
      distance in kilometres instead, which is not modelled. */
  datatype NearbyEntry = NearbyEntry(
    id: Id,
    name: Option<string>,
    specializations: seq<string>,
    location: Option<CurrentLocation>,
    distance: int,
    rating: real)

  function Entry(c: Candidate): (e: NearbyEntry)
    ensures e.id == c.id && e.distance == c.distance && e.location == c.pro.currentLocation
    ensures e.rating == 0.0 <==> Falsy(c.pro.ratingsAverage)
    ensures !Falsy(c.pro.ratingsAverage) ==> e.rating == c.pro.ratingsAverage.value
  {
    NearbyEntry(c.id, c.pro.name, c.pro.specializations, c.pro.currentLocation, c.distance,
                if Falsy(c.pro.ratingsAverage) then 0.0 else c.pro.ratingsAverage.value)
  }

  /** `getNearbyProfessionals`: 400 without latitude or longitude; otherwise one entry
      per selected candidate, in selection order. */
  function NearbyProfessionals(q: NearbyQuery, candidates: seq<Candidate>): (r: Result<seq<NearbyEntry>>)
    ensures !Present(q.latitude) || !Present(q.longitude) <==> r == Err(Http(400, "Missing coordinates"))
    ensures r.Ok? ==> |r.value| <= NearbyLimit
    ensures r.Ok? ==> forall k :: 0 <= k < |r.value| ==> ListedFrom(r.value[k], q, candidates)
    ensures r.Ok? ==> forall i, j :: 0 <= i < j < |r.value| ==> r.value[i].distance <= r.value[j].distance
    ensures r.Ok? ==> r.value == Entries(NearbySelection(q, candidates))
  {
    if !Present(q.latitude) || !Present(q.longitude) then Err(Http(400, "Missing coordinates"))
    else
      ListingFacts(q, candidates);
      Ok(Entries(NearbySelection(q, candidates)))
  }

  /** `e` is the entry of a candidate that answers the query. */
  predicate ListedFrom(e: NearbyEntry, q: NearbyQuery, candidates: seq<Candidate>) {
    exists c :: c in candidates && IsNearby(c, RadiusOf(q), Wanted(q)) && e == Entry(c)
  }

  /** The `.map(...)` of the selection into entries. */
  function Entries(s: seq<Candidate>): (r: seq<NearbyEntry>)
    ensures |r| == |s| && forall k :: 0 <= k < |s| ==> r[k] == Entry(s[k])
  {
    seq(|s|, k requires 0 <= k < |s| => Entry(s[k]))
  }

  /** The handler leaves no nearer match out: under 50 entries every match is
      listed, and with 50 every match strictly nearer than the last one listed is. */
  lemma NearbyProfessionalsNearest(q: NearbyQuery, candidates: seq<Candidate>, c: Candidate)
    requires Present(q.latitude) && Present(q.longitude)
    requires c in candidates && IsNearby(c, RadiusOf(q), Wanted(q))
    ensures var r := NearbyProfessionals(q, candidates);
      && r.Ok?
      && (|r.value| < NearbyLimit ==> Entry(c) in r.value)
      && (|r.value| == NearbyLimit && c.distance < r.value[|r.value| - 1].distance ==> Entry(c) in r.value)
  {
    var s := NearbySelection(q, candidates);
    var e := Entries(s);
    NearbySelectionNearest(q, candidates);
    if |s| < NearbyLimit || (|s| == NearbyLimit && c.distance < e[|e| - 1].distance) {
      var k :| 0 <= k < |s| && s[k] == c;
      assert e[k] == Entry(c);
    }
  }

  /** Each entry of the listing comes from a nearby candidate, at most 50, in
      selection order. */
  lemma ListingFacts(q: NearbyQuery, candidates: seq<Candidate>)
    ensures var r := Entries(NearbySelection(q, candidates));
      && |r| <= NearbyLimit
      && (forall k :: 0 <= k < |r| ==> ListedFrom(r[k], q, candidates))
      && (forall i, j :: 0 <= i < j < |r| ==> r[i].distance <= r[j].distance)
  {
    var s := NearbySelection(q, candidates);
    var r := Entries(s);
    forall k | 0 <= k < |r|
      ensures ListedFrom(r[k], q, candidates)
    {
      assert s[k] in candidates && IsNearby(s[k], RadiusOf(q), Wanted(q)) && r[k] == Entry(s[k]);
    }
  }
}
