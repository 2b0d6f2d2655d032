/** The customer address book (at most 15 addresses, with a single default kept
    across add, update and delete) and the customer's current location. */
module LocationController {
  import opened Wrappers
  import opened Records

  const MaxAddresses: nat := 15

  predicate AtMostOneDefault(s: seq<Address>) {
    forall i, j :: 0 <= i < j < |s| && s[i].isDefault ==> !s[j].isDefault
  }

  /** A non-empty address book has exactly one default. */
  predicate OneDefault(s: seq<Address>) {
    AtMostOneDefault(s) && (s != [] ==> exists k :: 0 <= k < |s| && s[k].isDefault)
  }

  /** `addresses.forEach(addr => addr.isDefault = false)`. */
  function Cleared(s: seq<Address>): (r: seq<Address>)
    ensures |r| == |s|
    ensures forall k :: 0 <= k < |s| ==> r[k] == s[k].(isDefault := false)
  {
    seq(|s|, k requires 0 <= k < |s| => s[k].(isDefault := false))
  }

  /** The `forEach` loop itself. */
  method ClearDefaults(s: seq<Address>) returns (r: seq<Address>)
    ensures r == Cleared(s)
  {
    r := s;
    var i := 0;
    while i < |r|
      invariant 0 <= i <= |r| == |s|
      invariant forall k :: 0 <= k < i ==> r[k] == s[k].(isDefault := false)
      invariant forall k :: i <= k < |r| ==> r[k] == s[k]
    {
      r := r[i := r[i].(isDefault := false)];
      i := i + 1;
    }
  }

  /** `user.addresses.id(addressId)`: the position of the address, if any. */
  function AddressIndex(s: seq<Address>, id: Id): (r: Option<nat>)
    ensures r.Some? ==> r.value < |s| && s[r.value].id == id
    ensures r.None? <==> forall k :: 0 <= k < |s| ==> s[k].id != id
  {
    if s == [] then None
    else if s[0].id == id then Some(0)
    else
      var r := AddressIndex(s[1..], id);
      assert forall k :: 1 <= k < |s| ==> s[k] == s[1..][k - 1];
      if r.Some? then Some(r.value + 1) else None
  }

  /** The list after `addAddress` below the limit: one entry appended; it is the
      default when asked for or when it is the first, and then every other default
      is cleared. */
  function Added(s: seq<Address>, id: Id, details: AddressDetails, isDefault: Option<bool>): (r: seq<Address>)
    ensures |r| == |s| + 1
    ensures r[|s|] == Address(id, details, isDefault == Some(true) || s == [])
    ensures forall k :: 0 <= k < |s| ==>
              r[k] == if isDefault == Some(true) then s[k].(isDefault := false) else s[k]
  {
    var makeDefault := isDefault == Some(true) || s == [];
    (if makeDefault then Cleared(s) else s) + [Address(id, details, makeDefault)]
  }

  lemma AddedKeepsOneDefault(s: seq<Address>, id: Id, details: AddressDetails, isDefault: Option<bool>)
    ensures AtMostOneDefault(s) ==> AtMostOneDefault(Added(s, id, details, isDefault))
    ensures OneDefault(s) ==> OneDefault(Added(s, id, details, isDefault))
  {
    var r := Added(s, id, details, isDefault);
    if OneDefault(s) && s != [] && isDefault != Some(true) {
      var k :| 0 <= k < |s| && s[k].isDefault;
      assert r[k].isDefault;
    }
  }

  /** A body of `updateAddress`: the fields it names (an absent one is `None`). */
  datatype AddressUpdate = AddressUpdate(
    houseNo: Option<string>,
    street: Option<string>,
    landmark: Option<string>,
    city: Option<string>,
    state: Option<string>,
    zipCode: Option<string>,
    addressType: Option<string>,
    isDefault: Option<bool>)

  function Or(x: Option<string>, y: Option<string>): Option<string> {
    if x.Some? then x else y
  }

  /** `Object.assign(address, updateData)`: every named field is overwritten. */
  function Assigned(a: Address, u: AddressUpdate): (b: Address)
    ensures b.id == a.id
    ensures b.isDefault == u.isDefault.GetOr(a.isDefault)
  {
    var d := a.details;
    Address(a.id,
            AddressDetails(Or(u.houseNo, d.houseNo), Or(u.street, d.street), Or(u.landmark, d.landmark),
                           Or(u.city, d.city), Or(u.state, d.state), Or(u.zipCode, d.zipCode),
                           Or(u.addressType, d.addressType)),
            u.isDefault.GetOr(a.isDefault))
  }

  /** The list after `updateAddress` of entry `i`: with a truthy `isDefault` every
      default is cleared first; then the update is applied to that entry only. */
  function Updated(s: seq<Address>, i: nat, u: AddressUpdate): (r: seq<Address>)
    requires i < |s|
    ensures |r| == |s|
    ensures r[i] == Assigned(if u.isDefault == Some(true) then s[i].(isDefault := false) else s[i], u)
    ensures forall k :: 0 <= k < |s| && k != i ==>
              r[k] == if u.isDefault == Some(true) then s[k].(isDefault := false) else s[k]
    ensures u.isDefault == Some(true) ==> forall k :: 0 <= k < |r| ==> (r[k].isDefault <==> k == i)
  {
    var base := if u.isDefault == Some(true) then Cleared(s) else s;
    base[i := Assigned(base[i], u)]
  }

  lemma UpdatedKeepsAtMostOneDefault(s: seq<Address>, i: nat, u: AddressUpdate)
    requires i < |s|
    ensures AtMostOneDefault(s) ==> AtMostOneDefault(Updated(s, i, u))
  {
  }

  /** Setting `isDefault: false` on the only default leaves a non-empty book with no
      default: `updateAddress` does not keep `OneDefault`. */
  lemma UpdateCanDropDefault(a: Address)
    requires a.isDefault
    ensures OneDefault([a])
    ensures var u := AddressUpdate(None, None, None, None, None, None, None, Some(false));
      !OneDefault(Updated([a], 0, u))
  {
    var u := AddressUpdate(None, None, None, None, None, None, None, Some(false));
    assert !Updated([a], 0, u)[0].isDefault;
  }

  /** The list after `deleteAddress` of entry `i`: the entry is removed and, when it
      was the default and others remain, the first remaining one becomes default.
      The id is that new default's, otherwise `null`. */
  function Deleted(s: seq<Address>, i: nat): (r: (seq<Address>, Option<Id>))
    requires i < |s|
    ensures |r.0| == |s| - 1
    ensures r.1.Some? <==> s[i].isDefault && |s| > 1
    ensures r.1.Some? ==> r.0[0].isDefault && r.1.value == r.0[0].id
    ensures forall k :: 0 <= k < |r.0| && (k > 0 || r.1.None?) ==>
              r.0[k] == if k < i then s[k] else s[k + 1]
    ensures r.1.Some? ==> r.0[0] == (if i == 0 then s[1] else s[0]).(isDefault := true)
  {
    var rest := s[..i] + s[i + 1..];
    if s[i].isDefault && |s| > 1 then (rest[0 := rest[0].(isDefault := true)], Some(rest[0].id))
    else (rest, None)
  }

  lemma DeletedKeepsOneDefault(s: seq<Address>, i: nat)
    requires i < |s|
    ensures AtMostOneDefault(s) ==> AtMostOneDefault(Deleted(s, i).0)
    ensures OneDefault(s) ==> OneDefault(Deleted(s, i).0)
  {
    var (r, newDefault) := Deleted(s, i);
    if AtMostOneDefault(s) {
      if newDefault.Some? {
        assert forall k :: 0 <= k < |s| && k != i ==> !s[k].isDefault;
        assert forall k :: 1 <= k < |r| ==> !r[k].isDefault;
      } else {
        assert forall k :: 0 <= k < |r| ==> r[k] == (if k < i then s[k] else s[k + 1]);
      }
    }
    if OneDefault(s) && r != [] && newDefault.None? {
      var k :| 0 <= k < |s| && s[k].isDefault;
      assert k != i;
      assert r[if k < i then k else k - 1].isDefault;
    }
  }

  /** `addAddress`: 404 for an unknown user, 400 once the book holds 15 addresses,
      each with no change; otherwise the extended book, saved. */
  method AddAddress(db: Db, userId: Id, id: Id, details: AddressDetails, isDefault: Option<bool>)
    returns (r: Result<seq<Address>>)
    modifies db`users
    ensures userId !in old(db.users) ==> r == Err(Http(404, "User not found")) && db.users == old(db.users)
    ensures userId in old(db.users) && |old(db.users[userId]).addresses| >= MaxAddresses ==>
              r == Err(Http(400, "Maximum address limit reached")) && db.users == old(db.users)
    ensures userId in old(db.users) && |old(db.users[userId]).addresses| < MaxAddresses ==>
              var u := old(db.users[userId]);
              var s := Added(u.addresses, id, details, isDefault);
              r == Ok(s) && db.users == old(db.users)[userId := u.(addresses := s)]
    ensures r.Ok? ==> |r.value| <= MaxAddresses
  {
    if userId !in db.users {
      return Err(Http(404, "User not found"));
    }
    var u := db.users[userId];
    var s := u.addresses;
    if |s| >= MaxAddresses {
      return Err(Http(400, "Maximum address limit reached"));
    }
    var makeDefault := isDefault == Some(true) || |s| == 0;
    if makeDefault {
      s := ClearDefaults(s);
    }
    s := s + [Address(id, details, makeDefault)];
    db.users := db.users[userId := u.(addresses := s)];
    r := Ok(s);
  }

  /** `updateAddress`: 404 for an unknown user or address, with no change; otherwise
      the updated book, saved. */
  method UpdateAddress(db: Db, userId: Id, addressId: Id, upd: AddressUpdate) returns (r: Result<seq<Address>>)
    modifies db`users
    ensures userId !in old(db.users) ==> r == Err(Http(404, "User not found")) && db.users == old(db.users)
    ensures userId in old(db.users) && AddressIndex(old(db.users[userId]).addresses, addressId).None? ==>
              r == Err(Http(404, "Address not found")) && db.users == old(db.users)
    ensures userId in old(db.users) && AddressIndex(old(db.users[userId]).addresses, addressId).Some? ==>
              var u := old(db.users[userId]);
              var s := Updated(u.addresses, AddressIndex(u.addresses, addressId).value, upd);
              r == Ok(s) && db.users == old(db.users)[userId := u.(addresses := s)]
  {
    if userId !in db.users {
      return Err(Http(404, "User not found"));
    }
    var u := db.users[userId];
    var i := AddressIndex(u.addresses, addressId);
    if i.None? {
      return Err(Http(404, "Address not found"));
    }
    var s := u.addresses;
    if upd.isDefault == Some(true) {
      s := ClearDefaults(s);
    }
    s := s[i.value := Assigned(s[i.value], upd)];
    db.users := db.users[userId := u.(addresses := s)];
    r := Ok(s);
  }

  /** `deleteAddress`: 404 for an unknown user or address, with no change; otherwise
      the shortened book and the id of the new default, if one was chosen. */
  method DeleteAddress(db: Db, userId: Id, addressId: Id) returns (r: Result<(seq<Address>, Option<Id>)>)
    modifies db`users
    ensures userId !in old(db.users) ==> r == Err(Http(404, "User not found")) && db.users == old(db.users)
    ensures userId in old(db.users) && AddressIndex(old(db.users[userId]).addresses, addressId).None? ==>
              r == Err(Http(404, "Address not found")) && db.users == old(db.users)
    ensures userId in old(db.users) && AddressIndex(old(db.users[userId]).addresses, addressId).Some? ==>
              var u := old(db.users[userId]);
              var d := Deleted(u.addresses, AddressIndex(u.addresses, addressId).value);
              r == Ok(d) && db.users == old(db.users)[userId := u.(addresses := d.0)]
  {
    if userId !in db.users {
      return Err(Http(404, "User not found"));
    }
    var u := db.users[userId];
    var i := AddressIndex(u.addresses, addressId);
    if i.None? {
      return Err(Http(404, "Address not found"));
    }
    var d := Deleted(u.addresses, i.value);
    db.users := db.users[userId := u.(addresses := d.0)];
    r := Ok(d);
  }

  /** `updateCurrentLocation`: the point stored as `[longitude, latitude]` with the
      time; for an unknown user nothing is written and reading the `null` result
      fails with a 500. */
  method UpdateCurrentLocation(db: Db, userId: Id, latitude: real, longitude: real, now: Time)
    returns (r: Result<UserLocation>)
    modifies db`users
    ensures userId !in old(db.users) ==> r == Err(Http(500, NullDocument)) && db.users == old(db.users)
    ensures userId in old(db.users) ==>
              var loc := UserLocation([longitude, latitude], now);
              r == Ok(loc) && db.users == old(db.users)[userId := old(db.users[userId]).(currentLocation := Some(loc))]
  {
    if userId !in db.users {
      return Err(Http(500, NullDocument));
    }
    var loc := UserLocation([longitude, latitude], now);
    db.users := db.users[userId := db.users[userId].(currentLocation := Some(loc))];
    r := Ok(loc);
  }
}
