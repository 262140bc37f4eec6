/** The `User` entity and its `UserPreferences` value. */
module DomainUser {
  import opened Wrappers
  import opened Common
  import Text

  /** `UserPreferences`; the JSON document of custom preferences is kept as its text. */
  datatype UserPreferences = UserPreferences(
    timeZone: string, locale: string, dateFormat: string, timeFormat: string, currency: string,
    emailNotifications: bool, pushNotifications: bool, desktopNotifications: bool,
    itemsPerPage: int, theme: string, customPreferences: Option<string>)

  /** The preferences a `new UserPreferences()` starts with. */
  const DefaultPreferences := UserPreferences("UTC", "en-US", "MM/dd/yyyy", "12h", "USD",
                                              true, true, true, 25, "light", None)

  /** A snapshot of a user's fields: what the change tracker and the database hold. */
  datatype UserState = UserState(
    id: Guid, tenantId: Guid, email: string, firstName: string, lastName: string,
    displayName: string, phone: Option<string>, jobTitle: Option<string>,
    department: Option<string>, preferences: UserPreferences,
    createdAt: Time, updatedAt: Option<Time>, lastLoginAt: Option<Time>,
    isActive: bool, isEmailVerified: bool)

  /** `$"{firstName} {lastName}".Trim()`: the names joined by one space, with the white space
      at both ends of the joined text removed and none left there. */
  function DisplayNameOf(firstName: string, lastName: string): (d: string)
    ensures Text.IsWhiteSpaceCut(firstName + " " + lastName, d)
    ensures d != [] ==> !Text.IsWhiteSpace(d[0]) && !Text.IsWhiteSpace(d[|d| - 1])
    ensures d == [] ==> forall i :: 0 <= i < |firstName| ==> Text.IsWhiteSpace(firstName[i])
    ensures d == [] ==> forall i :: 0 <= i < |lastName| ==> Text.IsWhiteSpace(lastName[i])
  {
    var joined := firstName + " " + lastName;
    assert forall i :: 0 <= i < |firstName| ==> joined[i] == firstName[i];
    assert forall i :: 0 <= i < |lastName| ==> joined[|firstName| + 1 + i] == lastName[i];
    Text.Trim(joined)
  }

  /** White space around the first name is dropped only at the outer end: " Ann" and "Lee"
      give "Ann Lee". */
  lemma DisplayNameOfPaddedFirstName(firstName: string, lastName: string)
    requires firstName != [] && !Text.IsWhiteSpace(firstName[0]) && !Text.IsWhiteSpace(firstName[|firstName| - 1])
    requires lastName != [] && !Text.IsWhiteSpace(lastName[0]) && !Text.IsWhiteSpace(lastName[|lastName| - 1])
    ensures DisplayNameOf(" " + firstName, lastName) == firstName + " " + lastName
  {
    var s := " " + firstName + " " + lastName;
    var r := firstName + " " + lastName;
    assert s[1..|s|] == r;
    assert Text.IsWhiteSpaceCut(s, r) by {
      assert forall k :: 0 <= k < 1 ==> Text.IsWhiteSpace(s[k]);
    }
    Text.TrimUnique(s, r);
  }

  /** Names without surrounding white space are joined by exactly one space. */
  lemma DisplayNameOfCleanNames(firstName: string, lastName: string)
    requires firstName != [] && !Text.IsWhiteSpace(firstName[0]) && !Text.IsWhiteSpace(firstName[|firstName| - 1])
    requires lastName != [] && !Text.IsWhiteSpace(lastName[0]) && !Text.IsWhiteSpace(lastName[|lastName| - 1])
    ensures DisplayNameOf(firstName, lastName) == firstName + " " + lastName
  {
    Text.TrimClean(firstName + " " + lastName);
  }

  /** With an empty last name the separating space is trimmed away. */
  lemma DisplayNameOfFirstNameOnly(firstName: string)
    requires firstName != [] && !Text.IsWhiteSpace(firstName[0]) && !Text.IsWhiteSpace(firstName[|firstName| - 1])
    ensures DisplayNameOf(firstName, "") == firstName
  {
    var s := firstName + " " + "";
    assert Text.SkipWhiteSpace(s, 0) == 0;
    assert Text.SkipWhiteSpaceBack(s, 0, |s| - 1) == |s| - 1;
    assert Text.SkipWhiteSpaceBack(s, 0, |s|) == |s| - 1;
    assert s[..|s| - 1] == firstName;
  }

  class User {
    const id: Guid
    const tenantId: Guid            // init-only
    var email: string
    var firstName: string
    var lastName: string
    var displayName: string
    var phone: Option<string>
    var jobTitle: Option<string>
    var department: Option<string>
    var preferences: UserPreferences
    const createdAt: Time           // init-only
    var updatedAt: Option<Time>
    var lastLoginAt: Option<Time>
    var isActive: bool
    var isEmailVerified: bool

    function State(): UserState
      reads this
    {
      UserState(id, tenantId, email, firstName, lastName, displayName, phone, jobTitle, department,
                preferences, createdAt, updatedAt, lastLoginAt, isActive, isEmailVerified)
    }

    /** `new User(tenantId, email, firstName, lastName)`: active, e-mail not verified, the display
        name derived from the two names; `id` and `now` are what the initialisers draw. */
    constructor (id: Guid, now: Time, tenantId: Guid, email: string, firstName: string, lastName: string)
      ensures State() == UserState(id, tenantId, email, firstName, lastName,
                                   DisplayNameOf(firstName, lastName), None, None, None,
                                   DefaultPreferences, now, None, None, true, false)
    {
      this.id := id;
      this.tenantId := tenantId;
      this.email := email;
      this.firstName := firstName;
      this.lastName := lastName;
      displayName := DisplayNameOf(firstName, lastName);
      phone, jobTitle, department := None, None, None;
      preferences := DefaultPreferences;
      createdAt := now;
      updatedAt, lastLoginAt := None, None;
      isActive := true;
      isEmailVerified := false;
    }

    /** `UpdateProfile`: overwrites the names, the derived display name and the three optional
        fields (an omitted argument defaults to `null` and clears its field) and stamps
        `UpdatedAt`. E-mail, tenant, activity and creation time stay. */
    method UpdateProfile(firstName: string, lastName: string, now: Time, phone: Option<string> := None,
                         jobTitle: Option<string> := None, department: Option<string> := None)
      modifies this`firstName, this`lastName, this`displayName, this`phone, this`jobTitle,
               this`department, this`updatedAt
      ensures State() == old(State()).(firstName := firstName, lastName := lastName,
                                       displayName := DisplayNameOf(firstName, lastName),
                                       phone := phone, jobTitle := jobTitle,
                                       department := department, updatedAt := Some(now))
    {
      Rename(firstName, lastName);
      this.phone, this.jobTitle, this.department, updatedAt := phone, jobTitle, department, Some(now);
    }

    /** The name part of `UpdateProfile`: both names, and the display name derived from them. */
    method Rename(firstName: string, lastName: string)
      modifies this`firstName, this`lastName, this`displayName
      ensures State() == old(State()).(firstName := firstName, lastName := lastName,
                                       displayName := DisplayNameOf(firstName, lastName))
    {
      this.firstName, this.lastName, displayName := firstName, lastName, DisplayNameOf(firstName, lastName);
    }

    /** `UpdatePreferences`: only the preferences and `UpdatedAt` change. */
    method UpdatePreferences(preferences: UserPreferences, now: Time)
      modifies this`preferences, this`updatedAt
      ensures State() == old(State()).(preferences := preferences, updatedAt := Some(now))
    {
      this.preferences := preferences;
      updatedAt := Some(now);
    }

    /** `RecordLogin`: only `LastLoginAt` changes; `UpdatedAt` is left alone. */
    method RecordLogin(now: Time)
      modifies this`lastLoginAt
      ensures State() == old(State()).(lastLoginAt := Some(now))
    {
      lastLoginAt := Some(now);
    }

    /** `Deactivate`: clears `IsActive` and stamps `UpdatedAt`. */
    method Deactivate(now: Time)
      modifies this`isActive, this`updatedAt
      ensures State() == old(State()).(isActive := false, updatedAt := Some(now))
    {
      isActive := false;
      updatedAt := Some(now);
    }
  }

  /** `UpdateProfile(firstName, lastName)`: with the optional arguments left out, phone, job
      title and department are cleared. */
  method UpdateNamesOnly(u: User, firstName: string, lastName: string, now: Time)
    modifies u
    ensures u.State() == old(u.State()).(firstName := firstName, lastName := lastName,
                                         displayName := DisplayNameOf(firstName, lastName),
                                         phone := None, jobTitle := None, department := None,
                                         updatedAt := Some(now))
  {
    u.UpdateProfile(firstName, lastName, now);
  }
}
