/**
 The `accounts.User` record: a Django user extended with a user type
 (patient or doctor), a display name, a postal address and an optional
 profile picture, together with the strings derived from it on read.
 */
module Models {
  import opened Wrappers

  /** One entry of a Django `choices` list: the value stored in the column and its display label. */
  datatype Choice = Choice(value: string, display: string)

  const PatientType: string := "patient"
  const DoctorType: string := "doctor"

  /** `User.USER_TYPE_CHOICES`, in declaration order. */
  const UserTypeChoices: seq<Choice> := [Choice(PatientType, "Patient"), Choice(DoctorType, "Doctor")]

  /** The value `user_type` takes when a record is created without one. */
  const DefaultUserType: string := PatientType

  // The `max_length` of each character column.
  const UserTypeMaxLength: nat := 10
  const NameMaxLength: nat := 30
  const AddressLine1MaxLength: nat := 100
  const CityMaxLength: nat := 50
  const StateMaxLength: nat := 50
  const PincodeMaxLength: nat := 10

  /**
   A user record. `userType` is a plain string: the `choices` of the column
   are checked by form and model validation, not when a record is saved, so
   a stored value outside the choices is possible and the views handle it.
   */
  datatype User = User(
    username: string,
    email: string,
    userType: string,
    firstName: string,
    lastName: string,
    profilePicture: Option<string>,
    addressLine1: string,
    city: string,
    state: string,
    pincode: string)

  /** `v` is one of the two declared user types. */
  predicate IsUserTypeChoice(v: string) {
    v == PatientType || v == DoctorType
  }

  /**
   The label a `choices` list gives to `v`, as Django finds it: through a
   dictionary built from the list, so when a value occurs twice the later
   entry wins. `None` when `v` is not a value of the list.
   */
  function LookupLabel(choices: seq<Choice>, v: string): (r: Option<string>)
    ensures r.Some? <==> exists i :: 0 <= i < |choices| && choices[i].value == v
    ensures r.Some? ==>
      exists i :: 0 <= i < |choices| && choices[i] == Choice(v, r.value) &&
        forall j :: i < j < |choices| ==> choices[j].value != v
  {
    if choices == [] then None
    else if choices[|choices| - 1].value == v then Some(choices[|choices| - 1].display)
    else LookupLabel(choices[..|choices| - 1], v)
  }

  /**
   `get_user_type_display()`: the label of the stored user type, or the
   stored value itself when it is none of the choices.
   */
  function UserTypeDisplay(v: string): (r: string)
    ensures v == PatientType ==> r == "Patient"
    ensures v == DoctorType ==> r == "Doctor"
    ensures !IsUserTypeChoice(v) ==> r == v
  {
    assert UserTypeChoices[0].value == PatientType && UserTypeChoices[1].value == DoctorType;
    match LookupLabel(UserTypeChoices, v)
    case Some(display) => display
    case None => v
  }

  /** The user type of a new record: the one given, or the column default when none is. */
  function UserTypeOrDefault(given: Option<string>): (t: string)
    ensures given.Some? ==> t == given.value
    ensures given.None? ==> IsUserTypeChoice(t) && UserTypeDisplay(t) == "Patient"
  {
    match given
    case Some(v) => v
    case None => DefaultUserType
  }

  /** The `full_name` property: first name, one space, last name. */
  function FullName(u: User): (r: string)
    ensures |r| == |u.firstName| + 1 + |u.lastName|
    ensures r[..|u.firstName|] == u.firstName
    ensures r[|u.firstName|] == ' '
    ensures r[|u.firstName| + 1..] == u.lastName
  {
    u.firstName + " " + u.lastName
  }

  /**
   The `full_address` property: address line, city and state separated by
   ", ", then " - " and the pincode.
   */
  function FullAddress(u: User): (r: string)
    ensures |r| == |u.addressLine1| + |u.city| + |u.state| + |u.pincode| + 7
    ensures r[..|u.addressLine1|] == u.addressLine1
    ensures r[|u.addressLine1|..][..2] == ", "
    ensures r[|u.addressLine1| + 2..][..|u.city|] == u.city
    ensures r[|u.addressLine1| + 2 + |u.city|..][..2] == ", "
    ensures r[|u.addressLine1| + 4 + |u.city|..][..|u.state|] == u.state
    ensures r[|u.addressLine1| + 4 + |u.city| + |u.state|..][..3] == " - "
    ensures r[|r| - |u.pincode|..] == u.pincode
  {
    u.addressLine1 + ", " + u.city + ", " + u.state + " - " + u.pincode
  }

  /**
   `User.__str__`: the full name followed by the display label of the user
   type in parentheses.
   */
  function Str(u: User): (r: string)
    ensures FullName(u) <= r
    ensures |r| == |FullName(u)| + |UserTypeDisplay(u.userType)| + 3
    ensures u.userType == PatientType ==> r == FullName(u) + " (Patient)"
    ensures u.userType == DoctorType ==> r == FullName(u) + " (Doctor)"
    ensures !IsUserTypeChoice(u.userType) ==> r == FullName(u) + " (" + u.userType + ")"
  {
    u.firstName + " " + u.lastName + " (" + UserTypeDisplay(u.userType) + ")"
  }

  /** Every character column of `u` fits its declared `max_length`. */
  predicate WithinDeclaredBounds(u: User) {
    && |u.userType| <= UserTypeMaxLength
    && |u.firstName| <= NameMaxLength
    && |u.lastName| <= NameMaxLength
    && |u.addressLine1| <= AddressLine1MaxLength
    && |u.city| <= CityMaxLength
    && |u.state| <= StateMaxLength
    && |u.pincode| <= PincodeMaxLength
  }

  /**
   The choices list declares exactly the two user types, each with its own
   label, the lookup through it finds exactly those two, and every value
   (the default among them) fits the column.
   */
  lemma UserTypeChoicesDeclared(v: string)
    ensures LookupLabel(UserTypeChoices, v).Some? <==> IsUserTypeChoice(v)
    ensures LookupLabel(UserTypeChoices, PatientType) == Some("Patient")
    ensures LookupLabel(UserTypeChoices, DoctorType) == Some("Doctor")
    ensures IsUserTypeChoice(v) ==> |v| <= UserTypeMaxLength
    ensures IsUserTypeChoice(DefaultUserType)
  {
  }

  /** The display label tells the two user types apart and never collides with a stored value. */
  lemma UserTypeDisplayDistinguishes(v: string, w: string)
    requires IsUserTypeChoice(v) && IsUserTypeChoice(w)
    ensures UserTypeDisplay(v) == UserTypeDisplay(w) <==> v == w
    ensures UserTypeDisplay(v) != v
  {
  }

  /** The declared bounds of a record bound the strings derived from it. */
  lemma DerivedStringsBounded(u: User)
    requires WithinDeclaredBounds(u)
    ensures |FullName(u)| <= 2 * NameMaxLength + 1
    ensures |FullAddress(u)| <= AddressLine1MaxLength + CityMaxLength + StateMaxLength + PincodeMaxLength + 7
    ensures |Str(u)| <= 2 * NameMaxLength + 1 + UserTypeMaxLength + 3
  {
  }
}
