# Booking backend core, modelled in Dafny

This project models the core of a home-services booking backend built on Express and Mongoose. Customers book a service (plumbing, electrical, carpentry, cleaning, painting). A professional accepts, reschedules or is assigned the booking, shares a live location while travelling, and completes the job with a six-digit verification code. Around that flow sit:

- professional sign-up by OTP and the onboarding guards;
- document review by an administrator;
- the customer's address book;
- the nearby-professional and service-matching queries;
- the multi-area ranking of the geospatial service.

The database is the class `Records.Db`. Its `map` fields are bookings, professionals, services, users and the Redis location cache. Every HTTP handler, service method and socket event that writes becomes a `method` with `modifies` on exactly the fields it writes. Its `ensures` gives the reply for every branch and the complete new state. Handlers that only read, and the pure steps inside handlers (guards, the record after an update, the ranking of a query), are functions. Lemmas prove how they behave: the invariants kept, round trips, orders, and that nothing better is left out.

Inputs the code gets from outside are parameters, in these forms:

- the clock: `now`, in milliseconds;
- `Math.random()`: `rand`, a real in [0, 1);
- haversine distances: `distanceKm`, or the `distance` of a candidate in metres;
- the answer of the OTP service;
- whether an awaited notification fails: `notifyFails`;
- the documents a geo query returns: `candidates`, in the order MongoDB gives them for `$near`.

When a handler awaits a notification inside a MongoDB transaction, a failure aborts the transaction and nothing changes. When the write happened before the notification, outside a transaction, the write stays and the caller still gets an error. JavaScript values that the code tests for truthiness are modelled as `Wrappers.Js` or as `Option`. A string is "present" when it is given and not empty. A number is "falsy" when it is missing or 0.

Several files call names that they never import or define. Each of these calls throws at run time:

- `Booking` in `src/controllers/professional.controller.js`: the availability handler throws before its loop runs.
- `Booking` and `NotificationService` in `src/controllers/service-matching.controller.js`: `bookService` always ends in 500.
- `Professional` in `src/services/geospatial.service.js`.
- `this.checkProfessionalAvailability` in `src/services/BookingService.js`.

For the last three, the model has a member for the code as written, which throws, and a member for what the code was evidently written to do. The rest of the model uses the second one:

- `ServiceMatching.BookServiceAsWritten` is the handler as written. `ServiceMatching.BookService` is the intended one.
- `Geospatial.FindProfessionalsInAreasAsWritten` always throws. `Geospatial.FindProfessionalsInAreas` models the aggregation pipeline.
- `BookingService.RescheduleBookingAsWritten` throws once the status check passes. `BookingService.RescheduleBooking` takes the answer of the missing availability check as a parameter.

For the availability handler, `ProfessionalController.AvailabilitySlots` models only the slot loop the handler would run; there is no as-written member.

The Service schema in `src/models/service.model.js` does not declare `professionalTypes` or `matchingProfessionals`. The matching controller reads the first and writes the second. The model gives `ServiceModel.Service` both fields, as if the schema declared them, and a newly created service has both empty.

## Model

| member | source | states |
|---|---|---|
| Wrappers.StrictEqualsNoCoercion | src/services/BookingService.js:457 | `!==` does not coerce: a numeric code never equals the same digits sent as a string, so such a code is always rejected |
| Text.TrimSpec | src/controllers/professional-onboarding.controller.js:60-61 | `trim()` removes exactly the leading and trailing whitespace: the result is the middle of the input, and neither end of it is whitespace |
| Text.ToLower | src/controllers/professional-onboarding.controller.js:60 | `toLowerCase()` on ASCII: each upper-case letter becomes its lower-case letter, every other character is kept, and the length is kept |
| Text.ToUpper | src/controllers/professionalAuth.controller.js:56 | `toUpperCase()` on ASCII: each lower-case letter becomes its upper-case letter, every other character is kept, and the length is kept |
| Text.Split | src/controllers/professional-location.controller.js:139 | `split(',')` gives at least one part, and no part contains the separator |
| Text.TrimIdempotent | src/models/service.model.js:7 | trimming a trimmed string changes nothing |
| Text.TrimNoSpace | src/controllers/professional-onboarding.controller.js:60 | a string with no whitespace is its own trim |
| Text.JoinSplit | src/controllers/professional-location.controller.js:139 | splitting on a separator and joining back with it gives the original string |
| Text.DecimalStringValue | src/controllers/professionalAuth.controller.js:55 | `toString()` of a natural number reads back as that number |
| Text.LastDigitsValue | src/controllers/professionalAuth.controller.js:55 | the last k characters of a number's decimal form are worth the number modulo 10^k |
| Text.DecimalStringLength | src/controllers/professionalAuth.controller.js:55 | a number of at least 10^k has more than k digits |
| Text.Substring | src/controllers/professionalAuth.controller.js:56 | `substring(start, end)` clamps both ends to the length and yields the characters between them |
| Ordering.Sort | src/controllers/booking.controller.js:181 | the sort is a permutation of its input (same multiset) ordered by any total, transitive relation |
| Ordering.Filter | src/controllers/booking.controller.js:176-178 | a query filter keeps only matching documents and every one of them |
| Ordering.Take | src/controllers/booking.controller.js:182 | `.limit(n)` keeps the first n results, or all of them when there are fewer |
| Ordering.FilterCount | src/controllers/booking.controller.js:176-178 | a query filter keeps every matching document as often as it is stored and drops all the others |
| Ordering.TakeSorted | src/controllers/booking.controller.js:182 | `.limit(n)` of a sorted result is still sorted |
| Ordering.TopBest | src/controllers/booking.controller.js:181-182 | sort then limit: the kept items come from the input; with fewer than n, all of them are kept; with n, nothing that the last kept item does not precede is left out |
| ServiceModel.ParseCategory | src/models/service.model.js:9-13 | a category string is accepted exactly when it names one of the five enum values, and it maps back to that name |
| ServiceModel.ParsePricingModel | src/models/service.model.js:24-28 | a pricing model string is accepted exactly when it names one of the four enum values |
| ServiceModel.SchemaErrors | src/models/service.model.js:4-29 | a path fails validation exactly when it is required and missing or empty after trim, outside its enum, or below the minimum price |
| ServiceModel.CreateService | src/models/service.model.js:3-36 | a service is saved exactly when no path fails; the saved document holds the trimmed name and description, `fixed` as the default pricing model and `isActive` true by default, and it is well formed; otherwise every failing path is reported |
| ServiceModel.TrimIdempotentIfPresent | src/models/service.model.js:14-17 | an optional field such as `description`, once trimmed, is unchanged by trimming it again; an absent one stays absent |
| Records.EtaMinutes | src/services/socket.service.js:200 | ETA at 30 km/h: the nearest whole number of minutes to distance·2, never negative for a non-negative distance |
| Records.UpdateProfessional | src/services/BookingService.js:241-246 | `findByIdAndUpdate` changes only the named professional, and with an unknown or null id changes nothing |
| Records.CreateGuard | src/services/BookingService.js:15-29 | 400 "Missing required fields" when the service id, coordinates or date is missing, otherwise 404 "Service not found" for an unknown service, otherwise no failure |
| Records.VerificationCode | src/services/BookingService.js:42 | `floor(100000 + random·900000)` is always a six-digit code |
| Records.VerificationCodeOnto | src/services/BookingService.js:42 | every six-digit code can be drawn |
| Records.NewBooking | src/services/BookingService.js:32-43 | the new booking is pending, has no professional, and carries the customer, service, location, date, the service's base price and a six-digit code |
| Records.CompletedAt | src/services/BookingService.js:468-469 | completion sets the status to completed and stamps `completedAt`, and nothing else |
| Records.CloserOrSameIsOrder | src/controllers/service-matching.controller.js:22-30 | ordering by distance, as `$near` does, is total and transitive |
| BookingService.CreateBooking | src/services/BookingService.js:9-92 | each guard failure replies without a write; otherwise exactly one new pending booking is stored under the new id |
| BookingService.AcceptBooking | src/services/BookingService.js:226-262 | a missing booking throws on the null document; a booking that is not pending is refused; success exactly when the booking is pending and the notification goes out; then the booking is accepted by that professional, and the professional's current booking is set to it with phase `assigned`; any failure leaves both collections unchanged |
| BookingService.RescheduledAsWritten | src/services/BookingService.js:279-285 | as written: the date is replaced, and the history gains one entry whose old and new dates are both the new date |
| BookingService.Rescheduled | src/services/BookingService.js:279-285 | as intended: the history gains one entry from the replaced date to the new one, and nothing else changes |
| BookingService.ReschedulePreservesChain | src/services/BookingService.js:280-285 | with the intended entry, the history stays a chain of moves from the original date to the current one |
| BookingService.RescheduleAsWrittenBreaksChain | src/services/BookingService.js:279-285 | as written, the chain breaks on any reschedule that actually changes the date |
| BookingService.RescheduleBooking | src/services/BookingService.js:264-310 | as intended, with the availability answer as a parameter: "Booking not found", "Cannot reschedule this booking" when the status is neither pending nor accepted, and "Professional not available at requested time", each without a write; otherwise the booking is saved rescheduled and a failed notification reports an error over the saved change |
| BookingService.RescheduleBookingAsWritten | src/services/BookingService.js:264-281 | as written: "Booking not found", then "Cannot reschedule this booking", and otherwise always the `TypeError` of the undefined availability check; never a success |
| BookingService.AssignProfessional | src/services/BookingService.js:381-403 | with no match it throws and writes nothing; otherwise the first match becomes the professional, the status is `assigned`, and the booking is saved before the notification |
| BookingService.WithPreference | src/services/BookingService.js:435-447 | afterwards the service always has a preference; an `occasional` entry is appended exactly when it had none |
| BookingService.WithPreferenceIdempotent | src/services/BookingService.js:435-447 | recording a preference twice is the same as once, and never creates two entries for one service |
| BookingService.UpdateUserServicePreferences | src/services/BookingService.js:435-447 | a missing user throws; otherwise only that user's preferences change |
| BookingService.VerifyServiceCompletion | src/services/BookingService.js:450-489 | success exactly when the booking exists, the code is strictly equal and the notifications go out; the booking is then completed and the professional released, and any failure writes nothing |
| BookingService.CompleteBooking | src/services/BookingService.js:491-531 | "Booking not found", then "Booking is not in progress" unless the status is exactly confirmed, then "Invalid verification code"; success exactly when all three checks pass and the notification goes out; all or nothing |
| BookingController.CreateBooking | src/controllers/booking.controller.js:10-87 | the same guards and new booking as the service layer; the reply counts the verified, available professionals of the service's category, at most 5 |
| BookingController.AcceptBooking | src/controllers/booking.controller.js:90-138 | 404 and 400 without a write; otherwise the caller is the booking's professional, the booking is accepted and the caller's `isAvailable` is cleared |
| BookingController.CompleteBooking | src/controllers/booking.controller.js:267-328 | 404 for a missing booking and 400 for a code that is not strictly equal, then no status check; a match completes the booking, makes the professional available and unsets the current booking; a failed notification answers 500 with nothing written |
| BookingController.ActiveBooking | src/controllers/booking.controller.js:142-171 | 404 exactly when the customer has no pending, accepted or in-progress booking; otherwise the first such booking in collection order |
| BookingController.NewerOrSameIsOrder | src/controllers/booking.controller.js:181 | ordering by `createdAt` descending is total and transitive |
| BookingController.OwnBookings | src/controllers/booking.controller.js:176-178 | exactly the customer's bookings |
| BookingController.BookingHistory | src/controllers/booking.controller.js:174-193 | at most 10 of the customer's bookings, newest first |
| BookingController.BookingHistoryNewest | src/controllers/booking.controller.js:181-182 | the history leaves nothing newer out: below 10 entries it lists every one of the customer's bookings, and at 10 every booking newer than the last one listed is in it |
| BookingController.TrackingInfo | src/controllers/booking.controller.js:230-264 | 404 exactly for an unknown booking; 500 "Failed to get tracking info" exactly when the professional's known location has no `coordinates` to destructure; otherwise always a reply, whose ETA is null exactly when no professional location is known and otherwise is the 30 km/h estimate |
| SocketService.LocationKeyInjective | src/services/socket.service.js:87 | two professionals never share a cache key |
| SocketService.CacheEntryExpires | src/services/socket.service.js:86-94 | a location that was just cached reads back for 300 seconds and is gone after that |
| SocketService.WithSocketLocation | src/services/socket.service.js:58-61 | the socket path sets `currentLocation.coordinates` and `updatedAt`, and nothing else |
| SocketService.UpdateLocation | src/services/socket.service.js:49-100 | a caller who is not a professional is refused with nothing written; otherwise the location is stored and cached, and the tracking and ETA are written exactly when the named booking exists and is accepted |
| SocketService.StoredStatus | src/services/socket.service.js:117 | `arrived` is stored as `in_progress`, and the other two phases as themselves |
| SocketService.Stamped | src/services/socket.service.js:118 | exactly the `<status>At` timestamp of the reported phase is set |
| SocketService.StatusUpdate | src/services/socket.service.js:103-132 | "Invalid status" for any other phase, then "Booking not found", both without a write; otherwise only that booking's status and timestamp change |
| SocketService.MessageRecipient | src/services/socket.service.js:135-160 | a professional's message goes to the customer; anyone else's goes to the booking's professional, which may be missing |
| SocketService.MessagesReachOtherParty | src/services/socket.service.js:145-147 | on a booking with a professional, each party's messages reach the other |
| SocketService.Disconnect | src/services/socket.service.js:163-180 | a professional goes offline with `lastSeen` stamped and its cache entry dropped; anyone else changes nothing |
| ProfessionalLocation.ZeroRejected | src/controllers/professional-location.controller.js:24 | a latitude or longitude of exactly 0 is refused, because `!latitude` is true for 0 |
| ProfessionalLocation.PushHistory | src/controllers/professional-location.controller.js:66-72 | `$position: 0` with `$slice: 100`: the new entry comes first, followed by the newest older entries, at most 100 |
| ProfessionalLocation.PushAllNewestFirst | src/controllers/professional-location.controller.js:66-72 | after any series of updates, the history is the newest 100 entries, newest first |
| ProfessionalLocation.Located | src/controllers/professional-location.controller.js:32-72 | the stored point is `[longitude, latitude]`; accuracy, heading and speed are taken when given and kept when absent; the location is stamped; `isAvailable` defaults to true; the professional is online and stamped; one `gps` history entry is pushed; nothing else changes |
| ProfessionalLocation.UpdateLocation | src/controllers/professional-location.controller.js:5-109 | 401 without an id, 400 for coordinates that are falsy or out of range, 404 for an unknown professional, each without a write; otherwise exactly that professional becomes the located record |
| ProfessionalLocation.Wanted | src/controllers/professional-location.controller.js:138-141 | a filter exists exactly when the parameter is a non-empty string, and its parts join back into it |
| ProfessionalLocation.NearbySelection | src/controllers/professional-location.controller.js:122-145 | at most 50 candidates, each available, online, verified, within the radius (default 5000 m) and of a wanted specialization, nearest first |
| ProfessionalLocation.NearbySelectionNearest | src/controllers/professional-location.controller.js:122-145 | nearer matches are not skipped: below 50 entries every match is returned, and at 50 every match strictly nearer than the last one listed is among them |
| ProfessionalLocation.Entry | src/controllers/professional-location.controller.js:150-161 | the rating is the average when it is truthy, and 0 exactly otherwise |
| ProfessionalLocation.NearbyProfessionals | src/controllers/professional-location.controller.js:111-170 | 400 "Missing coordinates" exactly when a coordinate is missing or empty; otherwise exactly the entries of the nearby selection, in its order: each from a matching candidate, at most 50, nearest first |
| ProfessionalLocation.NearbyProfessionalsNearest | src/controllers/professional-location.controller.js:122-161 | the handler leaves no nearer match out: below 50 entries every matching candidate's entry is listed, and at 50 every one strictly nearer than the last entry is |
| ProfessionalController.HigherRatedIsOrder | src/controllers/professional.controller.js:15 | ordering by rating descending, unrated last, is total and transitive |
| ProfessionalController.GetProfessionals | src/controllers/professional.controller.js:4-21 | exactly the professionals with role `professional` that meet the minimum rating, each as often as stored, highest rating first |
| ProfessionalController.DayStart | src/controllers/professional.controller.js:31 | the start of the day that contains the instant |
| ProfessionalController.BookedAtAny | src/controllers/professional.controller.js:41-44 | `some` is true exactly when one of the day's pending or confirmed bookings of this professional starts in that hour |
| ProfessionalController.AvailabilitySlots | src/controllers/professional.controller.js:27-50 | 9 slots, one per hour from 9 to 17 in increasing time, each available exactly when no considered booking starts in its hour |
| ProfessionalController.DocumentIndex | src/controllers/professional.controller.js:71 | `documents.id()` finds the document with that id, or reports that none has it |
| ProfessionalController.Reviewed | src/controllers/professional.controller.js:76-85 | only the reviewed document changes, and it is stamped; the professional becomes verified exactly when the status is `approved` and every document is now verified; a rejection never promotes |
| ProfessionalController.ValidateDocuments | src/controllers/professional.controller.js:55-99 | 403 for a caller who is not an admin and 404 for an unknown professional, each without a write; for the professional found by `userId`, 404 "Document not found" without a write when it lacks the document, and otherwise the reviewed record is saved and answered, or saved with a 500 when the notification fails |
| ProfessionalController.WithProfile | src/controllers/professional.controller.js:129-139 | `$set` of the three fields: a field that was given replaces the stored one, a missing field is left as it was, and nothing else changes |
| ProfessionalController.UpdateProfessionalProfile | src/controllers/professional.controller.js:121-145 | 403 without a write for a caller who is not a professional; otherwise the caller's record is updated, or null is returned for an unknown caller |
| LocationController.ClearDefaults | src/controllers/location.controller.js:19 | the loop clears every address's default flag and changes nothing else |
| LocationController.AddressIndex | src/controllers/location.controller.js:51 | `addresses.id()` finds the address with that id, or reports that none has it |
| LocationController.Added | src/controllers/location.controller.js:18-31 | one address is appended; it is the default when asked or when it is the first; asking clears every other default |
| LocationController.AddedKeepsOneDefault | src/controllers/location.controller.js:18-31 | adding keeps "at most one default", and keeps "exactly one default" |
| LocationController.Updated | src/controllers/location.controller.js:56-60 | only the target address takes the given fields; `isDefault: true` leaves it as the only default |
| LocationController.UpdatedKeepsAtMostOneDefault | src/controllers/location.controller.js:56-60 | an update never creates a second default |
| LocationController.UpdateCanDropDefault | src/controllers/location.controller.js:56-60 | `isDefault: false` on the only default leaves the user with no default address |
| LocationController.Deleted | src/controllers/location.controller.js:85-102 | one address is removed; a new default id is reported exactly when the removed address was the default and others remain, and it is then the first remaining address, made default |
| LocationController.DeletedKeepsOneDefault | src/controllers/location.controller.js:85-95 | a deletion keeps "at most one default", and keeps "exactly one default" |
| LocationController.AddAddress | src/controllers/location.controller.js:3-38 | 404 for an unknown user and 400 at 15 addresses, each without a write; otherwise only that user's addresses change, to the added list, which has at most 15 entries |
| LocationController.UpdateAddress | src/controllers/location.controller.js:40-67 | 404 for an unknown user or address without a write; otherwise the updated list is stored |
| LocationController.DeleteAddress | src/controllers/location.controller.js:69-107 | 404 for an unknown user or address without a write; otherwise the list after deletion is stored, and the new default id is returned |
| LocationController.UpdateCurrentLocation | src/controllers/location.controller.js:109-130 | the stored point is `[longitude, latitude]` with the time; an unknown user makes `user.currentLocation` throw, and answers 500 without a write |
| ProfessionalAuth.SendOtpGuard | src/controllers/professionalAuth.controller.js:15-17 | 400 exactly when the phone number is missing or empty |
| ProfessionalAuth.VerifyOtpGuard | src/controllers/professionalAuth.controller.js:38-44 | "All fields are required" when any field is missing or empty, then "Invalid role" unless the role is `professional`, and no failure exactly otherwise |
| ProfessionalAuth.GenerateUserId | src/controllers/professionalAuth.controller.js:54-57 | the id starts with `PRO`, followed by eight digits worth the clock modulo 10^8 and then the upper-cased random part; 14 characters for a current clock |
| ProfessionalAuth.CreateWithRetry | src/controllers/professionalAuth.controller.js:63-82 | at most 3 attempts: it stops at the first insert that succeeds or that fails for a reason other than a duplicate `userId`, and every earlier attempt did hit that duplicate; it is exhausted exactly when all 3 did |
| ProfessionalAuth.NewProfessional | src/controllers/professionalAuth.controller.js:68-73 | the created record has the phone, the generated id, status `registration_pending` and step `profile_details` |
| ProfessionalAuth.VerifyOtp | src/controllers/professionalAuth.controller.js:33-118 | each guard failure, and 401 "Invalid OTP", leaves the store unchanged; a known phone logs in to its own record without a write; for a new phone the attempt the retry loop stops at decides: an insert stores and answers `NewProfessional(phone, GenerateUserId(clock(a), random36(a)))`, so the new `userId` starts with `PRO`; any other insert error is a 500 with its message and no write; three collisions answer 500 "Failed to generate unique userId", and that answer means three collisions unless an insert error carried the same message |
| ProfessionalAuth.SignUpStep | src/controllers/professionalAuth.controller.js:63-104 | the retry loop stops at exactly one attempt, and that attempt gives the sign-up its answer and its new store |
| ProfessionalAuth.CompleteProfile | src/controllers/professionalAuth.controller.js:125-140 | 400 when the name or email is missing, 500 for a missing record, 400 "Profile already completed" unless the record is still `registration_pending`; otherwise always a success, where the name and email are set and the record moves to `document_pending` and `documents` |
| ProfessionalAuth.CompleteProfileOnce | src/controllers/professionalAuth.controller.js:131-133 | a completed profile cannot be completed a second time |
| ProfessionalAuth.UpdateProfile | src/controllers/professionalAuth.controller.js:121-162 | the store changes exactly when the profile is completed, and then only the caller's record; a failed email or SMS answers a 500 over the saved record |
| Upload.MaxFileSizeValue | src/middleware/upload.middleware.js:20 | the size limit is 5 MiB, 5242880 bytes |
| Upload.FileFilter | src/middleware/upload.middleware.js:6-14 | as written: an allowed type gets one accepting callback; any other type gets a rejection followed by an acceptance |
| Upload.FileFilterCallsBackTwice | src/middleware/upload.middleware.js:9-13 | a `text/plain` upload receives two callbacks |
| Upload.FileFilterIntended | src/middleware/upload.middleware.js:6-14 | as intended: exactly one callback, which accepts exactly the three allowed types |
| Upload.FileFilterIntendedAgrees | src/middleware/upload.middleware.js:6-14 | the first callback is the same in both, and the two agree completely on allowed types |
| Onboarding.IndexOf | src/controllers/professional-onboarding.controller.js:42 | the first occurrence of a character, or none |
| Onboarding.EmailMatchesIffShape | src/controllers/professional-onboarding.controller.js:42-43 | the regular expression `^[^\s@]+@[^\s@]+\.[^\s@]+$` accepts exactly the strings with that shape |
| Onboarding.LowerKeepsShape | src/controllers/professional-onboarding.controller.js:60 | lower-casing keeps an accepted address accepted |
| Onboarding.InitiateOnboarding | src/controllers/professional-onboarding.controller.js:6-63 | validator errors first, then missing or empty fields, then the email format; with none of these failing it always succeeds, and the service receives the lower-cased, trimmed email and the trimmed name |
| Onboarding.NormalisedEmail | src/controllers/professional-onboarding.controller.js:60 | for an accepted address, lower-casing then trimming is just lower-casing, and the result is still accepted |
| Onboarding.BlankNamePassesEmpty | src/controllers/professional-onboarding.controller.js:28-61 | a name of two spaces passes the check and reaches the service as the empty string |
| Onboarding.SaveProgressGuard | src/controllers/professional-onboarding.controller.js:86-99 | 400 "Step and data are required" exactly when either is missing or falsy, "Invalid step" for a step outside the four, and no failure exactly otherwise |
| Onboarding.UploadGuard | src/controllers/professional-onboarding.controller.js:125-144 | "Invalid document type", then "File is required", then "Invalid file type", each exactly in its case, and no failure exactly otherwise |
| Onboarding.UploadGuardAgreesWithFilter | src/controllers/professional-onboarding.controller.js:138-139 | a file the controller accepts is also accepted by the upload filter, both as written and as intended |
| Onboarding.VerifyDocumentGuard | src/controllers/professional-onboarding.controller.js:168-170 | 400 exactly when the professional id or document id is missing or empty |
| ServiceMatching.Matching | src/controllers/service-matching.controller.js:18-31 | exactly the verified, capable candidates with non-zero coordinates within 10 km, each as often as returned, nearest first |
| ServiceMatching.FindMatchingProfessionals | src/controllers/service-matching.controller.js:5-49 | 404 for an unknown service and 500 when `location` is missing, both without a write; otherwise the ids of the matching candidates are saved on the service and the matches are returned |
| ServiceMatching.BookService | src/controllers/service-matching.controller.js:51-92 | as intended: 404 when the service or professional is unknown, 400 exactly when no specialization fits, otherwise a pending booking for this customer, professional and service |
| ServiceMatching.MatchedCanBeBooked | src/controllers/service-matching.controller.js:18-67 | any professional the matching returns can be booked for that service |
| ServiceMatching.BookServiceAsWritten | src/controllers/service-matching.controller.js:51-96 | as written: always an error, 500 "Booking failed" once the guards pass, because `Booking` is not defined |
| ServiceMatching.BookServiceAsWrittenNeverBooks | src/controllers/service-matching.controller.js:74 | a booking the intended handler accepts fails as written |
| Geospatial.CountAreas | src/services/geospatial.service.js:77-92 | `matchedAreas` is the number of areas whose radius covers the distance, and it is zero exactly when none does |
| Geospatial.RankedBeforeIsOrder | src/services/geospatial.service.js:99-104 | the order "more matched areas first, then nearer" is total and transitive |
| Geospatial.PrimaryAreaCounts | src/services/geospatial.service.js:66-98 | a candidate within the primary radius always survives the `matchedAreas > 0` stage |
| Geospatial.EligibleOf | src/services/geospatial.service.js:57-74 | exactly the active candidates within the primary area that carry a wanted category, when categories are given |
| Geospatial.Ranking | src/services/geospatial.service.js:55-104 | the result is sorted by more matched areas, then by distance |
| Geospatial.RankingPermutes | src/services/geospatial.service.js:94-104 | the ranking is a permutation of the eligible candidates' ranks |
| Geospatial.RankingSound | src/services/geospatial.service.js:94-98 | every ranked entry belongs to an eligible candidate and has a positive area count |
| Geospatial.RankingComplete | src/services/geospatial.service.js:94-98 | every eligible candidate appears in the ranking |
| Geospatial.FindProfessionalsInAreas | src/services/geospatial.service.js:55-108 | as intended, with `Professional` imported: an empty area list fails, because `areas[0]` is undefined; otherwise the ranking, in its order |
| Geospatial.FindProfessionalsInAreasAsWritten | src/services/geospatial.service.js:1-56 | as written: always the `ReferenceError` for `Professional`, whatever the areas |
| Geospatial.FindProfessionalsAsWrittenRanksNoOne | src/services/geospatial.service.js:56 | an eligible candidate that the intended pipeline ranks is answered by no one as written |

## Left out

- The haversine formula is left out, because it needs trigonometry and floating point. Distances enter as `distanceKm`, or as metres on each candidate. The ETA is rounded from the distance.
- `ProfessionalLocation.NearbyProfessionals` reports each candidate's distance in metres, as the query measures it. The handler reports the haversine distance in kilometres.
- `Text.ToLower` and `Text.ToUpper` change ASCII letters only. JavaScript's `toLowerCase` and `toUpperCase` also map other Unicode letters, and can change the length. The inputs here are email addresses and base-36 digits.
- `Geospatial.FindProfessionalsInAreas` models the pipeline as if `Professional` were imported. As written it always throws; see `Geospatial.FindProfessionalsInAreasAsWritten`. It also does not model that `$geoNear` must be the first stage of a pipeline, so MongoDB would refuse the pipeline as built.
- `BookingService.RescheduleBooking` models the reschedule as if the availability check existed. As written it never gets past the check; see `BookingService.RescheduleBookingAsWritten`.
- `ProfessionalController.ValidateDocuments` models `findOne({ userId })` as choosing some record with that `userId`. The unique index is in the Professional schema, which is not part of this model. So the contract names the outcome for the record chosen, and the outcome exactly when that record is the only one with its `userId`. `ProfessionalAuth.VerifyOtp` treats the lookup by phone the same way.
- MongoDB query execution is modelled by the candidate sequences a query receives. `$near` order, `$geoNear`, index use and the compound `isAvailable` paths are not computed.
- Sessions, transactions and concurrency are modelled only as all-or-nothing writes. Each handler is atomic, and races between requests are not modelled.
- Notifications, email, SMS, the OTP service, JWT signing and verification, socket rooms and emits, and Redis I/O are external. A notification or email that fails is the boolean `notifyFails`. Socket authentication is the caller's role as a parameter.
- `waitForProfessionalResponse`, `handleEmergencyRequest`, `createBookingWithPreferenceMatching` and `updateBookingLocation` in `src/services/BookingService.js` are left out. They depend on timers, a broadcast that is not defined, and foreign services.
- `findAvailableProfessionals` and `findMatchingProfessionals` in `src/services/BookingService.js` become the `matching` parameter of `BookingService.AssignProfessional`.
- The earlier, shadowed definitions of `acceptBooking` and `verifyServiceCompletion` in `src/services/BookingService.js` are not modelled, and neither is the first `completeBooking` in `src/controllers/booking.controller.js`. In each case the later definition in the same class replaces the earlier one.
- `updateProfessionalLocation` in `src/controllers/professional.controller.js` (lines 101-119) is not modelled. It writes `activeStatus` fields that the rest of the core never reads.
- `getOnboardingStatus` and the onboarding service itself are outside this model. The controller's part is only the guards in front of them.
- `geocodeAddress` in `src/services/geospatial.service.js` is an HTTP call and is left out.
- `ProfessionalController.AvailabilitySlots` works in UTC whole days and hours. Local time zones and daylight saving are not modelled. The method models the loop the handler would run if `Booking` were imported; as written, the handler throws first.
- `ProfessionalLocation.UpdateLocation` models coordinates as optional reals. The string-to-number coercion of a form body is not modelled, and neither are `NaN` or non-numeric strings.
- `ProfessionalLocation.NearbyProfessionals` does not model `parseFloat` or `parseInt` of the query strings. The radius is already an integer.
- `ProfessionalAuth.NewProfessional` assumes the Professional schema's defaults: role `professional`, not available, not online, and empty collections. `src/models/professional.model.js` is not part of this model.
- `ProfessionalAuth.VerifyOtp` takes the id of the new document as `newKey`, which must be unused. Any other insert error is rethrown with its message and becomes a 500.
- `ProfessionalAuth.UpdateProfile` models a missing professional record as the 500 from reading a property of null.
- `ProfessionalController.UpdateProfessionalProfile` does not model the schema's `runValidators` checks. A validator error would reply 400.
- The express-validator rules behind `validationResult` are in the routes file, outside this model. `Onboarding.InitiateOnboarding` receives their errors as a list.
- Mongoose's handling of `undefined` in `$set` and `Object.assign` is modelled as "a missing field leaves the stored value". Setting a field to `null` explicitly is not modelled.
- The express error middleware that receives `next(error)` is outside this model.
- `ServiceMatching.FindMatchingProfessionals` treats `professionalTypes` and `matchingProfessionals` as declared fields. Under Mongoose's strict schema, the undeclared `matchingProfessionals` would not be saved, and an undefined `professionalTypes` would make the `$in` query fail.
- `ServiceMatching.BookServiceAsWritten` and `ServiceMatching.BookService` also read `professionalTypes` as a declared field. Under the strict schema it is undefined, so `service.professionalTypes.includes` would throw, and the 500 "Booking failed" would come for every professional with a specialization, where the model answers 400 for one whose specialization does not match.
- The schema's `description` length limits and its timestamps are not modelled, apart from `createdAt` on bookings.

## Findings

| source | as written | input that shows it | evidently intended | confidence | as-written member | corrected member |
|---|---|---|---|---|---|---|
| src/services/BookingService.js:279-285 | `scheduledDate` is overwritten before the history entry reads it, so `oldDate` is always the new date | any reschedule of a booking to a different date | the entry records the date being replaced | high, not executed | BookingService.RescheduledAsWritten (BookingService.RescheduleAsWrittenBreaksChain) | BookingService.Rescheduled (BookingService.ReschedulePreservesChain) |
| src/middleware/upload.middleware.js:9-13 | a rejected file's callback is not followed by `return`, so `cb(null, true)` also runs | an upload of type `text/plain` | reject and stop, with exactly one callback | high, not executed | Upload.FileFilter (Upload.FileFilterCallsBackTwice) | Upload.FileFilterIntended (Upload.FileFilterIntendedAgrees) |
| src/services/geospatial.service.js:1-56 | only `axios` is imported, so `Professional.aggregate` throws a `ReferenceError` | any call, for example one area and one eligible candidate | the professionals ranked by matched areas, then distance | high, not executed | Geospatial.FindProfessionalsInAreasAsWritten (Geospatial.FindProfessionalsAsWrittenRanksNoOne) | Geospatial.FindProfessionalsInAreas (Geospatial.RankingComplete) |
| src/services/BookingService.js:275-278 | `this.checkProfessionalAvailability` is not defined, so the call throws a `TypeError` | any pending or accepted booking | the booking moves to the new date when the professional is free | high, not executed | BookingService.RescheduleBookingAsWritten | BookingService.RescheduleBooking |
| src/controllers/service-matching.controller.js:74-83 | `Booking` and `NotificationService` are never imported, so every booking that passes the guards ends in 500 "Booking failed" | an existing service and a professional whose specialization matches it | the booking is saved as pending and the reply is 201 | high, not executed | ServiceMatching.BookServiceAsWritten (ServiceMatching.BookServiceAsWrittenNeverBooks) | ServiceMatching.BookService (ServiceMatching.MatchedCanBeBooked) |
