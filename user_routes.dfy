/**
 * The account handlers of server/routes/users.js: the address book with its
 * default-address rule, the profile update and the preferences merge. Each
 * handler works on the user document `protect` identified, changes it in
 * place and saves it.
 */
module UserRoutes {
  import opened Common
  import opened Text
  import opened UserModel
  import opened Store
  import AuthMiddleware

  // ---------------------------------------------------------------------------
  // The default-address rule

  /** At most one address is the default. */
  predicate AtMostOneDefault(addresses: seq<SavedAddress>)
  {
    forall i, j :: 0 <= i < j < |addresses| && addresses[i].isDefault ==> !addresses[j].isDefault
  }

  /** `addresses.forEach(addr => addr.isDefault = false)`. */
  function ClearDefaults(addresses: seq<SavedAddress>): (r: seq<SavedAddress>)
    ensures |r| == |addresses|
    ensures forall i :: 0 <= i < |r| ==> r[i] == addresses[i].(isDefault := false)
  {
    seq(|addresses|, i requires 0 <= i < |addresses| => addresses[i].(isDefault := false))
  }

  /** The first address with the given id (`addresses.id(id)`), if any. */
  function FindAddress(addresses: seq<SavedAddress>, id: AddressId): (k: Option<nat>)
    ensures k.Some? ==> k.value < |addresses| && addresses[k.value].id == id
    ensures k.Some? ==> forall i :: 0 <= i < k.value ==> addresses[i].id != id
    ensures k.None? ==> forall i :: 0 <= i < |addresses| ==> addresses[i].id != id
  {
    if addresses == [] then None
    else if addresses[0].id == id then Some(0)
    else
      var k := FindAddress(addresses[1..], id);
      if k.Some? then Some(k.value + 1) else None
  }

  // ---------------------------------------------------------------------------
  // Add

  /** The body of `POST /api/users/addresses`. */
  datatype AddressInput = AddressInput(
    name: string, phone: string, address: string, city: string, state: string, pincode: string, isDefault: bool)

  /** The validation chain: every field present, a mobile number, a pincode of six characters as `isLength` counts them. */
  predicate AddressInputValid(a: AddressInput, isMobilePhone: string -> bool)
  {
    && a.name != "" && isMobilePhone(a.phone) && a.address != "" && a.city != "" && a.state != ""
    && ValidatorLength(a.pincode) == 6
  }

  /** The address book after adding `a` under the fresh sub-document id `id`. */
  function AddedAddresses(addresses: seq<SavedAddress>, a: AddressInput, id: AddressId): seq<SavedAddress>
  {
    var kept := if a.isDefault then ClearDefaults(addresses) else addresses;
    kept + [SavedAddress(id, a.name, a.phone, a.address, a.city, a.state, a.pincode, a.isDefault || |addresses| == 0)]
  }

  /**
   * Adding appends exactly one address. Asked to be the default, it becomes
   * the only default; otherwise every existing address is untouched and the
   * new one is the default exactly when the book was empty. Either way at
   * most one default remains.
   */
  lemma AddAddressDefaults(addresses: seq<SavedAddress>, a: AddressInput, id: AddressId)
    ensures var r := AddedAddresses(addresses, a, id);
      && |r| == |addresses| + 1
      && r[|addresses|].id == id && r[|addresses|].name == a.name && r[|addresses|].pincode == a.pincode
      && (forall i :: 0 <= i < |addresses| ==> r[i] == addresses[i].(isDefault := r[i].isDefault))
      && (a.isDefault ==> r[|addresses|].isDefault && forall i :: 0 <= i < |addresses| ==> !r[i].isDefault)
      && (!a.isDefault ==> r[..|addresses|] == addresses && (r[|addresses|].isDefault <==> addresses == []))
      && (AtMostOneDefault(addresses) ==> AtMostOneDefault(r))
  {
    var r := AddedAddresses(addresses, a, id);
    if !a.isDefault {
      assert r[..|addresses|] == addresses;
    }
  }

  // ---------------------------------------------------------------------------
  // Update

  /** The body of `PUT /api/users/addresses/:addressId`; absent or empty fields are left alone. */
  datatype AddressPatch = AddressPatch(
    name: Option<string>, phone: Option<string>, address: Option<string>, city: Option<string>,
    state: Option<string>, pincode: Option<string>, isDefault: bool)

  /** `if (x) field = x`. */
  function Overwrite(current: string, supplied: Option<string>): string
  {
    if Truthy(supplied) then supplied.value else current
  }

  /** The address with the supplied non-empty fields written over it. */
  function Patched(a: SavedAddress, p: AddressPatch): SavedAddress
  {
    a.(name := Overwrite(a.name, p.name), phone := Overwrite(a.phone, p.phone), address := Overwrite(a.address, p.address),
       city := Overwrite(a.city, p.city), state := Overwrite(a.state, p.state), pincode := Overwrite(a.pincode, p.pincode))
  }

  /** The address book after patching the address at `k`. */
  function UpdatedAddresses(addresses: seq<SavedAddress>, k: nat, p: AddressPatch): seq<SavedAddress>
    requires k < |addresses|
  {
    var patched := addresses[k := Patched(addresses[k], p)];
    if p.isDefault then ClearDefaults(patched)[k := Patched(addresses[k], p).(isDefault := true)]
    else patched
  }

  /**
   * Update changes only the address at `k`, and there only the fields
   * supplied non-empty; asked to be the default it becomes the only default,
   * otherwise no flag changes. At most one default remains.
   */
  lemma UpdateAddressDefaults(addresses: seq<SavedAddress>, k: nat, p: AddressPatch)
    requires k < |addresses|
    ensures var r := UpdatedAddresses(addresses, k, p);
      && |r| == |addresses|
      && r[k].id == addresses[k].id
      && (Truthy(p.name) ==> r[k].name == p.name.value) && (!Truthy(p.name) ==> r[k].name == addresses[k].name)
      && (Truthy(p.pincode) ==> r[k].pincode == p.pincode.value) && (!Truthy(p.pincode) ==> r[k].pincode == addresses[k].pincode)
      && (forall i :: 0 <= i < |addresses| && i != k ==> r[i] == addresses[i].(isDefault := r[i].isDefault))
      && (p.isDefault ==> r[k].isDefault && forall i :: 0 <= i < |addresses| && i != k ==> !r[i].isDefault)
      && (!p.isDefault ==> forall i :: 0 <= i < |addresses| ==> r[i].isDefault == addresses[i].isDefault)
      && (AtMostOneDefault(addresses) ==> AtMostOneDefault(r))
  {
  }

  // ---------------------------------------------------------------------------
  // Delete

  /** `address.remove()`: the book without the entry at `k`. */
  function RemovedAddress(addresses: seq<SavedAddress>, k: nat): seq<SavedAddress>
    requires k < |addresses|
  {
    addresses[..k] + addresses[k + 1..]
  }

  /** Deleting removes exactly that entry, keeps the others in order, and keeps at most one default. */
  lemma DeleteAddressKeepsOthers(addresses: seq<SavedAddress>, k: nat)
    requires k < |addresses|
    ensures var r := RemovedAddress(addresses, k);
      && |r| == |addresses| - 1
      && (forall i :: 0 <= i < k ==> r[i] == addresses[i])
      && (forall i :: k < i < |addresses| ==> r[i - 1] == addresses[i])
      && (AtMostOneDefault(addresses) ==> AtMostOneDefault(r))
  {
    var r := RemovedAddress(addresses, k);
    if AtMostOneDefault(addresses) {
      forall i, j | 0 <= i < j < |r| && r[i].isDefault
        ensures !r[j].isDefault
      {
        var i' := if i < k then i else i + 1;
        var j' := if j < k then j else j + 1;
        assert r[i] == addresses[i'] && r[j] == addresses[j'];
      }
    }
  }

  // ---------------------------------------------------------------------------
  // Profile and preferences

  /** What `PUT /api/users/profile` accepts: a supplied name trims to 2..50 characters as `isLength` counts them, a supplied phone is a mobile number. */
  predicate ProfileInputValid(name: Option<string>, phone: Option<string>, isMobilePhone: string -> bool)
  {
    (name.Some? ==> 2 <= ValidatorLength(Trim(name.value)) <= 50) && (phone.Some? ==> isMobilePhone(phone.value))
  }

  /** The supplied name, trimmed. */
  function TrimmedName(name: Option<string>): (r: Option<string>)
    ensures r.Some? <==> name.Some?
  {
    if name.Some? then Some(Trim(name.value)) else None
  }

  /** The profile after `PUT /api/users/profile` with an already validated, trimmed name. */
  function UpdatedProfile(u: User, name: Option<string>, phone: Option<string>): User
  {
    var u1 := if Truthy(name) then u.(name := name.value) else u;
    if Truthy(phone) then u1.(phone := phone, isPhoneVerified := false) else u1
  }

  /**
   * A new phone number always drops the phone's verified flag; the name
   * changes only when supplied; nothing else changes.
   */
  lemma ProfileUpdateRule(u: User, name: Option<string>, phone: Option<string>)
    ensures var r := UpdatedProfile(u, name, phone);
      && (Truthy(phone) ==> r.phone == phone && !r.isPhoneVerified)
      && (!Truthy(phone) ==> r.phone == u.phone && r.isPhoneVerified == u.isPhoneVerified)
      && (r.name == if Truthy(name) then name.value else u.name)
      && r == u.(name := r.name, phone := r.phone, isPhoneVerified := r.isPhoneVerified)
  {
  }

  /** Supplied notification switches; absent ones keep their value. */
  datatype NotificationsPatch = NotificationsPatch(email: Option<bool>, sms: Option<bool>, push: Option<bool>)

  /** `{ ...current, ...supplied }` for the three switches. */
  function MergedNotifications(current: Notifications, supplied: NotificationsPatch): Notifications
  {
    Notifications(
      if supplied.email.Some? then supplied.email.value else current.email,
      if supplied.sms.Some? then supplied.sms.value else current.sms,
      if supplied.push.Some? then supplied.push.value else current.push)
  }

  /** The preferences after `PUT /api/users/preferences`. */
  function UpdatedPreferences(p: Preferences, notifications: Option<NotificationsPatch>,
                              language: Option<string>, currency: Option<string>): Preferences
  {
    Preferences(
      if notifications.Some? then MergedNotifications(p.notifications, notifications.value) else p.notifications,
      if Truthy(language) then language.value else p.language,
      if Truthy(currency) then currency.value else p.currency)
  }

  /**
   * The merge is shallow and per key: a switch changes only when supplied,
   * and language and currency only when supplied non-empty. Sending nothing
   * changes nothing, and sending the same update twice is the same as once.
   */
  lemma PreferencesMerge(p: Preferences, n: Option<NotificationsPatch>, language: Option<string>, currency: Option<string>)
    ensures var r := UpdatedPreferences(p, n, language, currency);
      && (r.notifications.email == if n.Some? && n.value.email.Some? then n.value.email.value else p.notifications.email)
      && (r.notifications.sms == if n.Some? && n.value.sms.Some? then n.value.sms.value else p.notifications.sms)
      && (r.notifications.push == if n.Some? && n.value.push.Some? then n.value.push.value else p.notifications.push)
      && (r.language == if Truthy(language) then language.value else p.language)
      && (r.currency == if Truthy(currency) then currency.value else p.currency)
      && UpdatedPreferences(r, n, language, currency) == r
    ensures UpdatedPreferences(p, None, None, None) == p
  {
  }

  // ---------------------------------------------------------------------------
  // The handlers

  /** `addresses.forEach(addr => addr.isDefault = false)` on the document. */
  method ClearDefaultFlags(user: UserDocument)
    modifies user
    ensures user.Value() == old(user.Value()).(addresses := ClearDefaults(old(user.addresses)))
  {
    var i := 0;
    while i < |user.addresses|
      invariant 0 <= i <= |user.addresses| == |old(user.addresses)|
      invariant user.Value() == old(user.Value()).(addresses := user.addresses)
      invariant forall j :: 0 <= j < i ==> user.addresses[j] == old(user.addresses)[j].(isDefault := false)
      invariant forall j :: i <= j < |user.addresses| ==> user.addresses[j] == old(user.addresses)[j]
    {
      user.addresses := user.addresses[i := user.addresses[i].(isDefault := false)];
      i := i + 1;
    }
  }

  /** `POST /api/users/addresses` (behind `requireEmailVerification`). */
  method AddAddress(user: UserDocument, input: AddressInput, isMobilePhone: string -> bool, id: AddressId)
    returns (res: Result<seq<SavedAddress>>)
    modifies user
    ensures !user.isEmailVerified ==> res == Err(NotPermitted) && user.Value() == old(user.Value())
    ensures user.isEmailVerified && !AddressInputValid(input, isMobilePhone) ==>
      res == Err(ValidationFailed) && user.Value() == old(user.Value())
    ensures user.isEmailVerified && AddressInputValid(input, isMobilePhone) ==>
      && user.Value() == old(user.Value()).(addresses := AddedAddresses(old(user.addresses), input, id))
      && res == Ok(user.addresses)
  {
    if AuthMiddleware.RequireEmailVerification(user.Value()).Deny? {
      return Err(NotPermitted);
    }
    if !AddressInputValid(input, isMobilePhone) {
      return Err(ValidationFailed);
    }
    if input.isDefault {
      ClearDefaultFlags(user);
    }
    var entry := SavedAddress(id, input.name, input.phone, input.address, input.city, input.state, input.pincode,
                              input.isDefault || |user.addresses| == 0);
    user.addresses := user.addresses + [entry];
    res := Ok(user.addresses);
  }

  /** `PUT /api/users/addresses/:addressId`. */
  method UpdateAddress(user: UserDocument, id: AddressId, patch: AddressPatch) returns (res: Result<seq<SavedAddress>>)
    modifies user
    ensures FindAddress(old(user.addresses), id).None? ==> res == Err(NotFound) && user.Value() == old(user.Value())
    ensures FindAddress(old(user.addresses), id).Some? ==>
      && user.Value() == old(user.Value()).(addresses :=
           UpdatedAddresses(old(user.addresses), FindAddress(old(user.addresses), id).value, patch))
      && res == Ok(user.addresses)
  {
    var k := FindAddress(user.addresses, id);
    if k.None? {
      return Err(NotFound);
    }
    var address := Patched(user.addresses[k.value], patch);
    user.addresses := user.addresses[k.value := address];
    if patch.isDefault {
      ClearDefaultFlags(user);
      user.addresses := user.addresses[k.value := address.(isDefault := true)];
    }
    res := Ok(user.addresses);
  }

  /** `DELETE /api/users/addresses/:addressId`. */
  method DeleteAddress(user: UserDocument, id: AddressId) returns (res: Result<seq<SavedAddress>>)
    modifies user
    ensures FindAddress(old(user.addresses), id).None? ==> res == Err(NotFound) && user.Value() == old(user.Value())
    ensures FindAddress(old(user.addresses), id).Some? ==>
      && user.Value() == old(user.Value()).(addresses :=
           RemovedAddress(old(user.addresses), FindAddress(old(user.addresses), id).value))
      && res == Ok(user.addresses)
  {
    var k := FindAddress(user.addresses, id);
    if k.None? {
      return Err(NotFound);
    }
    user.addresses := user.addresses[..k.value] + user.addresses[k.value + 1..];
    res := Ok(user.addresses);
  }

  /**
   * `PUT /api/users/profile`: a supplied name must trim to 2..50 characters
   * and is stored trimmed; a supplied phone must be a mobile number.
   */
  method UpdateProfile(user: UserDocument, name: Option<string>, phone: Option<string>, isMobilePhone: string -> bool)
    returns (res: Result<User>)
    modifies user
    ensures name.Some? && !(2 <= ValidatorLength(Trim(name.value)) <= 50) ==> res == Err(ValidationFailed) && user.Value() == old(user.Value())
    ensures phone.Some? && !isMobilePhone(phone.value) ==> res == Err(ValidationFailed) && user.Value() == old(user.Value())
    ensures ProfileInputValid(name, phone, isMobilePhone) ==>
      user.Value() == UpdatedProfile(old(user.Value()), TrimmedName(name), phone) && res == Ok(user.Value())
  {
    if name.Some? && !(2 <= ValidatorLength(Trim(name.value)) <= 50) {
      return Err(ValidationFailed);
    }
    if phone.Some? && !isMobilePhone(phone.value) {
      return Err(ValidationFailed);
    }
    ApplyProfile(user, TrimmedName(name), phone);
    res := Ok(user.Value());
  }

  /** The field writes of `PUT /api/users/profile` once its input is validated. */
  method ApplyProfile(user: UserDocument, name: Option<string>, phone: Option<string>)
    modifies user
    ensures user.Value() == UpdatedProfile(old(user.Value()), name, phone)
  {
    if Truthy(name) {
      user.name := name.value;
    }
    if Truthy(phone) {
      user.phone := phone;
      user.isPhoneVerified := false;
    }
  }

  /** `PUT /api/users/preferences`. */
  method UpdatePreferences(user: UserDocument, notifications: Option<NotificationsPatch>,
                           language: Option<string>, currency: Option<string>) returns (preferences: Preferences)
    modifies user
    ensures user.Value() == old(user.Value()).(preferences := UpdatedPreferences(old(user.preferences), notifications, language, currency))
    ensures preferences == user.preferences
  {
    if notifications.Some? {
      user.preferences := user.preferences.(notifications := MergedNotifications(user.preferences.notifications, notifications.value));
    }
    if Truthy(language) {
      user.preferences := user.preferences.(language := language.value);
    }
    if Truthy(currency) {
      user.preferences := user.preferences.(currency := currency.value);
    }
    preferences := user.preferences;
  }
}
