/** The professional-facing handlers: the rating-ordered listing, the daily
    availability slots, the admin's document review and the profile update. */
module ProfessionalController {
  import opened Wrappers
  import opened Records
  import Ordering

  /** The listing keeps professionals with a rating of at least the query's, when one
      is given; a record without a rating fails any `$gte`. */
  predicate Listed(p: Professional, minRating: Option<real>) {
    p.role == "professional" && (minRating.Some? ==> p.rating.Some? && p.rating.value >= minRating.value)
  }

  /** `sort({ rating: -1 })`: higher ratings first, records without one last. */
  predicate HigherRated(a: Professional, b: Professional) {
    b.rating.None? || (a.rating.Some? && a.rating.value >= b.rating.value)
  }

  lemma HigherRatedIsOrder()
    ensures Ordering.Total(HigherRated) && Ordering.Transitive(HigherRated)
  {
  }

  /** `getProfessionals`: exactly the listed records, each as often as stored, highest
      rating first. `minRating` is `Number(rating)` for a non-empty `rating`. */
  function GetProfessionals(pros: seq<Professional>, minRating: Option<real>): (r: seq<Professional>)
    ensures forall p :: multiset(r)[p] == if Listed(p, minRating) then multiset(pros)[p] else 0
    ensures forall i, j :: 0 <= i < j < |r| ==> HigherRated(r[i], r[j])
    ensures forall i, j :: 0 <= i < j < |r| && r[j].rating.Some? ==> r[i].rating.Some? && r[i].rating.value >= r[j].rating.value
  {
    HigherRatedIsOrder();
    var listed := Ordering.Filter(pros, (p: Professional) => Listed(p, minRating));
    forall p
      ensures multiset(listed)[p] == if Listed(p, minRating) then multiset(pros)[p] else 0
    {
      Ordering.FilterCount(pros, (p: Professional) => Listed(p, minRating), p);
    }
    Ordering.Sort(listed, HigherRated)
  }

  /** The day's first slot and the one after the last. */
  const FirstHour: int := 9
  const EndHour: int := 18

  /** Local midnight of the day containing `t`. */
  function DayStart(t: Time): (d: Time)
    ensures d <= t < d + DayMs && d % DayMs == 0
  {
    t - t % DayMs
  }

  /** `getHours()` of a local time. */
  function HourOf(t: Time): (h: int)
    ensures 0 <= h < 24
  {
    (t % DayMs) / HourMs
  }

  /** The bookings the slot query reads: this professional's, pending or confirmed,
      scheduled in `[date, date + 1 day)`. */
  predicate Considered(b: Booking, professionalId: Id, date: Time) {
    && b.professional == Some(professionalId)
    && date <= b.scheduledDate < date + DayMs
    && b.status in {Pending, Confirmed}
  }

  /** `bookings.some(b => new Date(b.scheduledDate).getHours() === hour)`. */
  predicate BookedAt(bookings: seq<Booking>, professionalId: Id, date: Time, hour: int) {
    exists k :: 0 <= k < |bookings| && Considered(bookings[k], professionalId, date) && HourOf(bookings[k].scheduledDate) == hour
  }

  function BookedAtAny(bookings: seq<Booking>, professionalId: Id, date: Time, hour: int): (r: bool)
    ensures r <==> BookedAt(bookings, professionalId, date, hour)
  {
    if bookings == [] then false
    else
      var first := Considered(bookings[0], professionalId, date) && HourOf(bookings[0].scheduledDate) == hour;
      var rest := BookedAtAny(bookings[1..], professionalId, date, hour);
      assert BookedAt(bookings[1..], professionalId, date, hour) ==> BookedAt(bookings, professionalId, date, hour) by {
        if BookedAt(bookings[1..], professionalId, date, hour) {
          var k :| 0 <= k < |bookings[1..]| && Considered(bookings[1..][k], professionalId, date)
                   && HourOf(bookings[1..][k].scheduledDate) == hour;
          assert bookings[k + 1] == bookings[1..][k];
        }
      }
      assert BookedAt(bookings, professionalId, date, hour) && !first ==> BookedAt(bookings[1..], professionalId, date, hour) by {
        if BookedAt(bookings, professionalId, date, hour) && !first {
          var k :| 0 <= k < |bookings| && Considered(bookings[k], professionalId, date) && HourOf(bookings[k].scheduledDate) == hour;
          assert k != 0;
          assert bookings[1..][k - 1] == bookings[k];
        }
      }
      first || rest
  }

  datatype Slot = Slot(time: Time, available: bool)

  /** `getProfessionalAvailability`'s loop: one slot per hour from 9 to 17, at the
      top of that hour on the requested day, available exactly when no considered
      booking starts in that hour. */
  method AvailabilitySlots(bookings: seq<Booking>, professionalId: Id, date: Time) returns (slots: seq<Slot>)
    ensures |slots| == EndHour - FirstHour
    ensures forall k :: 0 <= k < |slots| ==>
              && slots[k].time == DayStart(date) + (FirstHour + k) * HourMs
              && HourOf(slots[k].time) == FirstHour + k
              && (slots[k].available <==> !BookedAt(bookings, professionalId, date, FirstHour + k))
    ensures forall i, j :: 0 <= i < j < |slots| ==> slots[i].time < slots[j].time
  {
    slots := [];
    var hour := FirstHour;
    while hour < EndHour
      invariant FirstHour <= hour <= EndHour
      invariant |slots| == hour - FirstHour
      invariant forall k :: 0 <= k < |slots| ==>
                  && slots[k].time == DayStart(date) + (FirstHour + k) * HourMs
                  && HourOf(slots[k].time) == FirstHour + k
                  && (slots[k].available <==> !BookedAt(bookings, professionalId, date, FirstHour + k))
    {
      var time := DayStart(date) + hour * HourMs;
      assert time % DayMs == hour * HourMs;
      var isBooked := BookedAtAny(bookings, professionalId, date, hour);
      slots := slots + [Slot(time, !isBooked)];
      hour := hour + 1;
    }
  }

  /** `professional.documents.id(documentId)`: the position of the document, if any. */
  function DocumentIndex(docs: seq<Document>, documentId: Id): (r: Option<nat>)
    ensures r.Some? ==> r.value < |docs| && docs[r.value].id == documentId
    ensures r.None? <==> forall k :: 0 <= k < |docs| ==> docs[k].id != documentId
  {
    if docs == [] then None
    else if docs[0].id == documentId then Some(0)
    else
      var r := DocumentIndex(docs[1..], documentId);
      assert forall k :: 1 <= k < |docs| ==> docs[k] == docs[1..][k - 1];
      if r.Some? then Some(r.value + 1) else None
  }

  predicate AllVerified(docs: seq<Document>) {
    forall k :: 0 <= k < |docs| ==> docs[k].verified
  }

  /** The record after the review of document `i`: the document's flag becomes
      `approved`, stamped with the reviewer and time, and the professional becomes
      verified exactly when an approval leaves every document verified. */
  function Reviewed(p: Professional, i: nat, approved: bool, adminId: Id, now: Time): (q: Professional)
    requires i < |p.documents|
    ensures |q.documents| == |p.documents|
    ensures q.documents[i] == p.documents[i].(verified := approved, verifiedAt := Some(now), verifiedBy := Some(adminId))
    ensures forall k :: 0 <= k < |p.documents| && k != i ==> q.documents[k] == p.documents[k]
    ensures q.status == (if approved && AllVerified(q.documents) then Verified else p.status)
    ensures q.status == Verified && p.status != Verified ==> approved && AllVerified(q.documents)
    ensures !approved ==> !AllVerified(q.documents) && q.status == p.status
    ensures q.(documents := p.documents, status := p.status) == p
  {
    var docs := p.documents[i := p.documents[i].(verified := approved, verifiedAt := Some(now), verifiedBy := Some(adminId))];
    p.(documents := docs, status := if approved && AllVerified(docs) then Verified else p.status)
  }

  /** `k` is the only record carrying its `userId`, so `findOne` by that id finds it. */
  predicate OnlyWithUserId(professionals: map<Id, Professional>, k: Id)
    requires k in professionals
  {
    forall j :: j in professionals && professionals[j].userId == professionals[k].userId ==> j == k
  }

  /** The review of the professional stored under `k`, from store `before` to store
      `after` with answer `r`: 404 "Document not found" without a write when it has
      no such document; otherwise the reviewed record is saved, and answered unless
      the notification fails. */
  predicate Review(before: map<Id, Professional>, k: Id, documentId: Id, status: Js, adminId: Id, now: Time,
                   notifyFails: bool, r: Result<Professional>, after: map<Id, Professional>)
    requires k in before
  {
    var p := before[k];
    var i := DocumentIndex(p.documents, documentId);
    && (i.None? ==> r == Err(Http(404, "Document not found")) && after == before)
    && (i.Some? ==>
          var q := Reviewed(p, i.value, status == Str("approved"), adminId, now);
          after == before[k := q] && r == (if notifyFails then Err(Http(500, NotificationFailed)) else Ok(q)))
  }

  /** `validateProfessionalDocuments`: 403 for a caller who is not an admin, 404 for an
      unknown professional (looked up by `userId`) or document, each with no change.
      Otherwise the review is saved; a failing notification then turns the response
      into an error but the review stays. */
  method ValidateDocuments(db: Db, callerRole: string, adminId: Id, professionalUserId: Id, documentId: Id,
                           status: Js, notifyFails: bool, now: Time) returns (r: Result<Professional>)
    modifies db`professionals
    ensures callerRole != "admin" ==> r == Err(Http(403, "Not authorized")) && db.professionals == old(db.professionals)
    ensures callerRole == "admin" && (forall k :: k in old(db.professionals) ==> old(db.professionals[k]).userId != professionalUserId) ==>
              r == Err(Http(404, "Professional not found")) && db.professionals == old(db.professionals)
    ensures r == Err(Http(404, "Document not found")) ==> db.professionals == old(db.professionals)
    ensures r.Ok? || r == Err(Http(500, NotificationFailed)) ==>
              && callerRole == "admin" && (r.Ok? <==> !notifyFails)
              && exists k :: && k in old(db.professionals) && old(db.professionals[k]).userId == professionalUserId
                             && var p := old(db.professionals[k]);
                                var i := DocumentIndex(p.documents, documentId);
                                && i.Some?
                                && db.professionals == old(db.professionals)[k := Reviewed(p, i.value, status == Str("approved"), adminId, now)]
                                && (r.Ok? ==> r.value == db.professionals[k])
    ensures callerRole == "admin" && (exists k :: k in old(db.professionals) && old(db.professionals[k]).userId == professionalUserId) ==>
              r != Err(Http(404, "Professional not found"))
    ensures callerRole == "admin" && (exists k :: k in old(db.professionals) && old(db.professionals[k]).userId == professionalUserId) ==>
              exists k :: && k in old(db.professionals) && old(db.professionals[k]).userId == professionalUserId
                          && Review(old(db.professionals), k, documentId, status, adminId, now, notifyFails, r, db.professionals)
    ensures forall k :: && callerRole == "admin" && k in old(db.professionals) && old(db.professionals[k]).userId == professionalUserId
                        && OnlyWithUserId(old(db.professionals), k) ==>
              Review(old(db.professionals), k, documentId, status, adminId, now, notifyFails, r, db.professionals)
  {
    if callerRole != "admin" {
      return Err(Http(403, "Not authorized"));
    }
    if forall k :: k in db.professionals ==> db.professionals[k].userId != professionalUserId {
      return Err(Http(404, "Professional not found"));
    }
    var k :| k in db.professionals && db.professionals[k].userId == professionalUserId;
    var p := db.professionals[k];
    var i := DocumentIndex(p.documents, documentId);
    if i.None? {
      return Err(Http(404, "Document not found"));
    }
    var q := Reviewed(p, i.value, status == Str("approved"), adminId, now);
    db.professionals := db.professionals[k := q];
    if notifyFails {
      return Err(Http(500, NotificationFailed));
    }
    r := Ok(q);
  }

  /** The profile fields a professional may set; an absent one keeps its value. */
  datatype ProfileUpdate = ProfileUpdate(
    specializations: Option<seq<string>>,
    experience: Option<int>,
    qualifications: Option<seq<string>>)

  function WithProfile(p: Professional, u: ProfileUpdate): (q: Professional)
    ensures q.specializations == u.specializations.GetOr(p.specializations)
    ensures q.experience == (if u.experience.Some? then u.experience else p.experience)
    ensures q.qualifications == u.qualifications.GetOr(p.qualifications)
    ensures q.(specializations := p.specializations, experience := p.experience, qualifications := p.qualifications) == p
  {
    p.(specializations := u.specializations.GetOr(p.specializations),
       experience := if u.experience.Some? then u.experience else p.experience,
       qualifications := u.qualifications.GetOr(p.qualifications))
  }

  /** `updateProfessionalProfile`: 403 for a caller who is not a professional;
      otherwise only the three profile fields of the caller's record change. An
      unknown caller gets `null` back. */
  method UpdateProfessionalProfile(db: Db, callerRole: string, callerId: Id, u: ProfileUpdate)
    returns (r: Result<Option<Professional>>)
    modifies db`professionals
    ensures callerRole != "professional" ==> r == Err(Http(403, "Not authorized")) && db.professionals == old(db.professionals)
    ensures callerRole == "professional" ==>
              && db.professionals == UpdateProfessional(old(db.professionals), Some(callerId), (p: Professional) => WithProfile(p, u))
              && r == Ok(if callerId in db.professionals then Some(db.professionals[callerId]) else None)
  {
    if callerRole != "professional" {
      return Err(Http(403, "Not authorized"));
    }
    db.professionals := UpdateProfessional(db.professionals, Some(callerId), (p: Professional) => WithProfile(p, u));
    r := Ok(if callerId in db.professionals then Some(db.professionals[callerId]) else None);
  }
}
