/**
 * The Bean Validation annotations on the `User` entity (model/User.java), as the
 * set of constraints a value violates. Each annotation is checked on its own;
 * every one but `@NotNull` accepts a missing (null) value.
 */
module UserEntity {
  import opened Common
  import opened JavaText

  datatype User = User(
    id: Uuid,
    name: Option<string>,
    email: Option<string>,
    phoneNumber: Option<string>,
    additionalInfo: Option<string>)

  /** One violated annotation. */
  datatype Violation =
    | NameNull        // @NotNull on name
    | NameLength      // @Length(min, max) on name
    | NameCharacters  // @Pattern on name
    | EmailFormat     // @Email on email
    | PhoneSize       // @Size(min = 9, max = 10) on phoneNumber
    | PhoneDigits     // @Pattern("[0-9]+") on phoneNumber
    | InfoSize        // @Size(max) on additionalInfo

  const NAME_MIN_LENGTH := 3
  const NAME_MAX_LENGTH := 20
  const INFO_MAX_LENGTH := 800

  /** The nine Polish letters of the name pattern, lower and upper case. */
  const PolishLetters: set<char> :=
    {'ż', 'ź', 'ć', 'ń', 'ó', 'ł', 'ę', 'ą', 'ś', 'Ż', 'Ź', 'Ć', 'Ą', 'Ś', 'Ę', 'Ł', 'Ó', 'Ń'}

  /** One character of `[A-Za-zżźćńółęąśŻŹĆĄŚĘŁÓŃ ]`. */
  predicate NameChar(c: char) {
    ('A' <= c <= 'Z') || ('a' <= c <= 'z') || c in PolishLetters || c == ' '
  }

  /** `[0-9]+`, matched against the whole string. */
  predicate AllDigits(s: string) {
    |s| >= 1 && forall i :: 0 <= i < |s| ==> IsDigit(s[i])
  }

  /** The violations Bean Validation reports for `u`; `emailOk` is Hibernate's `@Email` check. */
  function Violations(u: User, emailOk: string -> bool): set<Violation>
  {
    (if u.name.None? then {NameNull} else {})
    + (if u.name.Some? && !(NAME_MIN_LENGTH <= |u.name.value| <= NAME_MAX_LENGTH) then {NameLength} else {})
    + (if u.name.Some? && !(forall i :: 0 <= i < |u.name.value| ==> NameChar(u.name.value[i])) then {NameCharacters} else {})
    + (if u.email.Some? && !emailOk(u.email.value) then {EmailFormat} else {})
    + (if u.phoneNumber.Some? && !(9 <= |u.phoneNumber.value| <= 10) then {PhoneSize} else {})
    + (if u.phoneNumber.Some? && !AllDigits(u.phoneNumber.value) then {PhoneDigits} else {})
    + (if u.additionalInfo.Some? && |u.additionalInfo.value| > INFO_MAX_LENGTH then {InfoSize} else {})
  }

  predicate Valid(u: User, emailOk: string -> bool) {
    Violations(u, emailOk) == {}
  }

  /** A user is valid exactly when each annotated field meets its rule; absent optional fields always do. */
  lemma ValidIff(u: User, emailOk: string -> bool)
    ensures Valid(u, emailOk) <==>
      && u.name.Some?
      && 3 <= |u.name.value| <= 20
      && (forall i :: 0 <= i < |u.name.value| ==> NameChar(u.name.value[i]))
      && (u.email.Some? ==> emailOk(u.email.value))
      && (u.phoneNumber.Some? ==> 9 <= |u.phoneNumber.value| <= 10 && AllDigits(u.phoneNumber.value))
      && (u.additionalInfo.Some? ==> |u.additionalInfo.value| <= 800)
  {
    if Valid(u, emailOk) {
      assert NameNull !in Violations(u, emailOk);
      assert NameLength !in Violations(u, emailOk);
      assert NameCharacters !in Violations(u, emailOk);
      assert EmailFormat !in Violations(u, emailOk);
      assert PhoneSize !in Violations(u, emailOk);
      assert PhoneDigits !in Violations(u, emailOk);
      assert InfoSize !in Violations(u, emailOk);
    }
  }

  /** A phone number that is present but has a non-digit, or the wrong length, is reported. */
  lemma PhoneRules(u: User, emailOk: string -> bool)
    requires u.phoneNumber.Some?
    ensures PhoneSize in Violations(u, emailOk) <==> !(9 <= |u.phoneNumber.value| <= 10)
    ensures PhoneDigits in Violations(u, emailOk) <==> !AllDigits(u.phoneNumber.value)
  {
  }

  /** A user without name reports exactly `NameNull` for it, never a length or pattern violation. */
  lemma MissingName(u: User, emailOk: string -> bool)
    requires u.name.None?
    ensures NameNull in Violations(u, emailOk)
    ensures NameLength !in Violations(u, emailOk) && NameCharacters !in Violations(u, emailOk)
  {
  }
}

/**
 * The Bean Validation annotations on the offer's `Owner` (offer/Owner.java); the
 * length limits are the configuration constants `USER_NAME_MIN_LENGTH`,
 * `USER_NAME_MAX_LENGTH` and `USER_DESCRIPTION_MAX_LENGTH`.
 */
module OwnerEntity {
  import opened Common
  import opened JavaText
  import UserEntity

  /** The referenced `Voivodeship` entity; its own fields play no part here. */
  type Voivodeship(==)

  datatype Owner = Owner(
    id: Uuid,
    name: Option<string>,
    email: Option<string>,
    phoneNumber: Option<string>,
    city: Option<string>,
    voivodeship: Option<Voivodeship>,
    additionalInfo: Option<string>)

  datatype Limits = Limits(nameMin: int, nameMax: int, descriptionMax: int)

  /** One character of `[a-zA-ZąĄćĆęĘłŁńŃóÓśŚżŻźŹ ]`. */
  predicate NameChar(c: char) {
    ('a' <= c <= 'z') || ('A' <= c <= 'Z')
    || c in {'ą', 'Ą', 'ć', 'Ć', 'ę', 'Ę', 'ł', 'Ł', 'ń', 'Ń', 'ó', 'Ó', 'ś', 'Ś', 'ż', 'Ż', 'ź', 'Ź'}
    || c == ' '
  }

  function Violations(o: Owner, limits: Limits, emailOk: string -> bool): set<UserEntity.Violation>
  {
    (if o.name.None? then {UserEntity.NameNull} else {})
    + (if o.name.Some? && !(limits.nameMin <= |o.name.value| <= limits.nameMax) then {UserEntity.NameLength} else {})
    + (if o.name.Some? && !(forall i :: 0 <= i < |o.name.value| ==> NameChar(o.name.value[i])) then {UserEntity.NameCharacters} else {})
    + (if o.email.Some? && !emailOk(o.email.value) then {UserEntity.EmailFormat} else {})
    + (if o.phoneNumber.Some? && !(9 <= |o.phoneNumber.value| <= 10) then {UserEntity.PhoneSize} else {})
    + (if o.phoneNumber.Some? && !UserEntity.AllDigits(o.phoneNumber.value) then {UserEntity.PhoneDigits} else {})
    + (if o.additionalInfo.Some? && |o.additionalInfo.value| > limits.descriptionMax then {UserEntity.InfoSize} else {})
  }

  predicate Valid(o: Owner, limits: Limits, emailOk: string -> bool) {
    Violations(o, limits, emailOk) == {}
  }

  /** An owner is valid exactly when each annotated field meets its rule. */
  lemma ValidIff(o: Owner, limits: Limits, emailOk: string -> bool)
    ensures Valid(o, limits, emailOk) <==>
      && o.name.Some?
      && limits.nameMin <= |o.name.value| <= limits.nameMax
      && (forall i :: 0 <= i < |o.name.value| ==> NameChar(o.name.value[i]))
      && (o.email.Some? ==> emailOk(o.email.value))
      && (o.phoneNumber.Some? ==> 9 <= |o.phoneNumber.value| <= 10 && UserEntity.AllDigits(o.phoneNumber.value))
      && (o.additionalInfo.Some? ==> |o.additionalInfo.value| <= limits.descriptionMax)
  {
    var v := Violations(o, limits, emailOk);
    if v == {} {
      assert UserEntity.NameNull !in v && UserEntity.NameLength !in v && UserEntity.NameCharacters !in v;
      assert UserEntity.EmailFormat !in v && UserEntity.PhoneSize !in v;
      assert UserEntity.PhoneDigits !in v && UserEntity.InfoSize !in v;
    }
  }

  /** `city` and `voivodeship` carry no constraint. */
  lemma CityAndVoivodeshipFree(o: Owner, city: Option<string>, v: Option<Voivodeship>, limits: Limits, emailOk: string -> bool)
    ensures Violations(o.(city := city, voivodeship := v), limits, emailOk) == Violations(o, limits, emailOk)
  {
  }

  /** The owner's name alphabet is the user's, letter for letter. */
  lemma SameNameAlphabet(c: char)
    ensures NameChar(c) <==> UserEntity.NameChar(c)
  {
  }

  /**
   * With the user entity's limits (3, 20, 800) the owner's annotations report the
   * same violations as the user's for the same name, e-mail, phone and information.
   */
  lemma SameRulesAsUser(o: Owner, u: UserEntity.User, emailOk: string -> bool)
    requires o.name == u.name && o.email == u.email
    requires o.phoneNumber == u.phoneNumber && o.additionalInfo == u.additionalInfo
    ensures Violations(o, Limits(3, 20, 800), emailOk) == UserEntity.Violations(u, emailOk)
  {
    forall c: char ensures NameChar(c) <==> UserEntity.NameChar(c) {
      SameNameAlphabet(c);
    }
  }
}
