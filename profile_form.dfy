/** The profile editor: the declared rules of its fields, the form's initial values
    taken from the signed-in user, and the Save, Edit and Cancel handlers. */
module ProfileForm {
  import opened Remote
  import opened Records
  import Auth

  datatype AddressValues = AddressValues(address: string, city: string)

  datatype ProfileValues = ProfileValues(
    firstName: string,
    lastName: string,
    email: string,
    phone: string,
    address: AddressValues,
    gender: string)

  /** A required string field: present and non-empty. */
  predicate Required(s: string)
  {
    s != ""
  }

  predicate IsDigit(c: char)
  {
    '0' <= c <= '9'
  }

  /** `phone`: matches `^[0-9]{10}$`, which also makes it required. */
  predicate PhoneValid(phone: string)
  {
    |phone| == 10 && forall i :: 0 <= i < |phone| ==> IsDigit(phone[i])
  }

  /** The whole schema. The e-mail format rule belongs to the validation library and
      is taken as a parameter. */
  predicate ProfileValid(v: ProfileValues, emailFormat: string -> bool)
  {
    && Required(v.firstName)
    && Required(v.lastName)
    && Required(v.email) && emailFormat(v.email)
    && PhoneValid(v.phone)
    && Required(v.address.address)
    && Required(v.address.city)
    && Required(v.gender)
  }

  /** An empty required field fails the form; a valid form has a ten-digit phone and
      an e-mail address the format rule accepts. */
  lemma ProfileRules(v: ProfileValues, emailFormat: string -> bool)
    ensures v.firstName == "" || v.lastName == "" || v.email == "" || v.phone == ""
      || v.address.address == "" || v.address.city == "" || v.gender == ""
      ==> !ProfileValid(v, emailFormat)
    ensures ProfileValid(v, emailFormat) ==> PhoneValid(v.phone) && emailFormat(v.email)
  {
  }

  /** `field || ""` */
  function OrEmpty(field: Option<string>): string
  {
    match field
    case Some(s) => s
    case None => ""
  }

  /** The form's starting values: each the user's field, or "" when there is no user,
      no such field or no address. */
  function InitialValues(user: Option<UserRecord>): (v: ProfileValues)
    ensures user.None? ==> v == ProfileValues("", "", "", "", AddressValues("", ""), "")
    ensures user.Some? ==>
      && (user.value.firstName.Some? ==> v.firstName == user.value.firstName.value)
      && (user.value.firstName.None? ==> v.firstName == "")
      && (user.value.lastName.Some? ==> v.lastName == user.value.lastName.value)
      && (user.value.lastName.None? ==> v.lastName == "")
      && (user.value.email.Some? ==> v.email == user.value.email.value)
      && (user.value.email.None? ==> v.email == "")
      && (user.value.phone.Some? ==> v.phone == user.value.phone.value)
      && (user.value.phone.None? ==> v.phone == "")
      && (user.value.gender.Some? ==> v.gender == user.value.gender.value)
      && (user.value.gender.None? ==> v.gender == "")
      && (user.value.address.None? ==> v.address == AddressValues("", ""))
    ensures user.Some? && user.value.address.Some? ==>
      && (user.value.address.value.address.Some? ==> v.address.address == user.value.address.value.address.value)
      && (user.value.address.value.address.None? ==> v.address.address == "")
      && (user.value.address.value.city.Some? ==> v.address.city == user.value.address.value.city.value)
      && (user.value.address.value.city.None? ==> v.address.city == "")
  {
    match user
    case None => ProfileValues("", "", "", "", AddressValues("", ""), "")
    case Some(u) =>
      ProfileValues(
        OrEmpty(u.firstName),
        OrEmpty(u.lastName),
        OrEmpty(u.email),
        OrEmpty(u.phone),
        match u.address
          case None => AddressValues("", "")
          case Some(a) => AddressValues(OrEmpty(a.address), OrEmpty(a.city)),
        OrEmpty(u.gender))
  }

  /** Missing fields come out empty, so the form can only pass its rules when every
      required field of the user is present: without a user it never does. */
  lemma InitialValuesNeedFields(user: Option<UserRecord>, emailFormat: string -> bool)
    ensures ProfileValid(InitialValues(user), emailFormat) ==>
      && user.Some?
      && user.value.firstName.Some? && user.value.lastName.Some? && user.value.email.Some?
      && user.value.phone.Some? && user.value.gender.Some?
      && user.value.address.Some?
      && user.value.address.value.address.Some? && user.value.address.value.city.Some?
  {
  }

  /** Ten digits and nothing else. */
  lemma PhoneRule(phone: string)
    ensures PhoneValid(phone) ==> Required(phone)
    ensures PhoneValid(phone) <==> |phone| == 10 && forall c :: c in phone ==> IsDigit(c)
  {
    if |phone| == 10 && forall c :: c in phone ==> IsDigit(c) {
      assert forall i :: 0 <= i < |phone| ==> phone[i] in phone;
    }
  }

  /** The update request: the user's id and the form's values. */
  datatype Request = UpdateProfile(id: int, body: ProfileValues)

  class ProfilePage {
    var editMode: bool
    var success: bool
    var error: string
    var values: ProfileValues

    constructor (auth: Auth.AuthProvider)
      ensures !editMode && !success && error == ""
      ensures values == InitialValues(auth.user)
    {
      editMode := false;
      success := false;
      error := "";
      values := InitialValues(auth.user);
    }

    /** The Edit Profile button. */
    method StartEdit()
      modifies this`editMode
      ensures editMode
    {
      editMode := true;
    }

    /** Typing into the fields. */
    method Change(v: ProfileValues)
      modifies this`values
      ensures values == v
    {
      values := v;
    }

    /** The Cancel button: leaves edit mode and puts the initial values back. */
    method Cancel(auth: Auth.AuthProvider)
      modifies this`editMode, this`values
      ensures !editMode && values == InitialValues(auth.user)
    {
      editMode := false;
      values := InitialValues(auth.user);
    }

    /** Save. The form runs its rules first and calls the handler only when they pass.
        Without a user, reading its id throws before any request is sent. The session
        is only read: a successful save does not change the signed-in user. */
    method Submit(auth: Auth.AuthProvider, reply: Reply<UserRecord>, emailFormat: string -> bool)
      returns (request: Option<Request>)
      modifies this`editMode, this`success, this`error
      ensures !ProfileValid(old(values), emailFormat) ==>
        request.None? && editMode == old(editMode) && success == old(success) && error == old(error)
      ensures ProfileValid(old(values), emailFormat) ==>
        request == if auth.user.Some? then Some(UpdateProfile(auth.user.value.id, values)) else None
      ensures ProfileValid(old(values), emailFormat) && auth.user.Some? && reply.Ok? ==>
        success && !editMode && error == old(error)
      ensures ProfileValid(old(values), emailFormat) && auth.user.Some? && reply.Fail? ==>
        && success == old(success) && editMode == old(editMode)
        && error == MessageOr(reply.message, "Update failed")
      ensures ProfileValid(old(values), emailFormat) && auth.user.None? ==>
        success == old(success) && editMode == old(editMode) && error == "Update failed"
    {
      request := None;
      if ProfileValid(values, emailFormat) {
        match auth.user {
          case None =>
            error := "Update failed";
          case Some(u) =>
            request := Some(UpdateProfile(u.id, values));
            match reply {
              case Ok(_) =>
                success := true;
                editMode := false;
              case Fail(m) =>
                error := MessageOr(m, "Update failed");
            }
        }
      }
    }
  }
}
