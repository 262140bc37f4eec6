/** `CreateUserCommand` and the rules `CreateUserCommandValidator` checks before the handler runs. */
module UserValidation {
  import opened Wrappers
  import opened Common
  import opened Text
  import opened DomainUser
  import opened TenantValidation

  /** The command; its `Preferences` DTO has exactly the fields of `UserPreferences`. */
  datatype CreateUserCommand = CreateUserCommand(
    email: string, firstName: string, lastName: string,
    phone: Option<string>, jobTitle: Option<string>, department: Option<string>,
    preferences: Option<UserPreferences>, roleIds: seq<Guid>)

  // ---------------------------------------------------------------- ^[\+]?[1-9][\d]{0,15}$

  predicate IsDigit(c: char) {
    '0' <= c <= '9'
  }

  /** `[\d]*`, the whole of `s`. */
  predicate AllDigits(s: string)
    ensures AllDigits(s) && s != [] ==> IsDigit(s[|s| - 1])
    decreases |s|
  {
    s == [] || (IsDigit(s[0]) && AllDigits(s[1..]))
  }

  /** `[1-9][\d]{0,15}`, the whole of `s`. */
  predicate MatchesNumber(s: string) {
    s != [] && '1' <= s[0] <= '9' && |s| <= 16 && AllDigits(s[1..])
  }

  /** The phone pattern, the whole of `s`. */
  predicate MatchesPhonePattern(s: string)
    ensures MatchesPhonePattern(s) ==> 1 <= |s| <= 17 && IsDigit(s[|s| - 1])
  {
    if s != [] && s[0] == '+' then MatchesNumber(s[1..]) else MatchesNumber(s)
  }

  lemma {:induction false} AllDigitsIff(s: string)
    ensures AllDigits(s) <==> forall i :: 0 <= i < |s| ==> IsDigit(s[i])
    decreases |s|
  {
    if s != [] {
      AllDigitsIff(s[1..]);
      assert forall i :: 1 <= i < |s| ==> s[i] == s[1..][i - 1];
    }
  }

  /** The pattern accepts an optional '+' and then 1 to 16 digits, the first not a zero. */
  lemma PhonePatternIff(s: string)
    ensures MatchesPhonePattern(s) <==>
      var digits := if s != [] && s[0] == '+' then s[1..] else s;
      1 <= |digits| <= 16 && digits[0] != '0' && forall i :: 0 <= i < |digits| ==> IsDigit(digits[i])
  {
    var digits := if s != [] && s[0] == '+' then s[1..] else s;
    if digits != [] {
      AllDigitsIff(digits[1..]);
      assert forall i :: 1 <= i < |digits| ==> digits[i] == digits[1..][i - 1];
    }
  }

  lemma PhonePatternAccepts()
    ensures MatchesPhonePattern("+15550100") && MatchesPhonePattern("7")
  {
    assert AllDigits("550100");
  }

  lemma PhonePatternRejects()
    ensures !MatchesPhonePattern("0123") && !MatchesPhonePattern("+") && !MatchesPhonePattern("555-1234")
  {
    PhonePatternIff("555-1234");
    assert "555-1234"[3] == '-';
  }

  /** Seventeen digits are one too many. */
  lemma PhonePatternRejectsTooLong()
    ensures !MatchesPhonePattern("12345678901234567")
  {
  }

  // ---------------------------------------------------------------- the rules

  /** `Email`: not blank, accepted by the e-mail validator (an input here), at most 256. */
  function EmailFailures(email: string, emailFormatOk: bool): (r: seq<ValidationFailure>)
    ensures r == [] <==> !IsNullOrWhiteSpace(Some(email)) && emailFormatOk && |email| <= 256
  {
    Check(!IsNullOrWhiteSpace(Some(email)), "Email", "Email is required.") +
    Check(emailFormatOk, "Email", "Email must be a valid email address.") +
    Check(|email| <= 256, "Email", "Email cannot exceed 256 characters.")
  }

  function PersonNameFailures(name: string, property: string, caption: string): (r: seq<ValidationFailure>)
    ensures r == [] <==> !IsNullOrWhiteSpace(Some(name)) && |name| <= 100
  {
    Check(!IsNullOrWhiteSpace(Some(name)), property, caption + " is required.") +
    Check(|name| <= 100, property, caption + " cannot exceed 100 characters.")
  }

  /** The `When` guards both rules of the chain, so an empty phone is not checked at all. */
  function PhoneFailures(phone: Option<string>): (r: seq<ValidationFailure>)
    ensures IsNullOrEmpty(phone) ==> r == []
    ensures r == [] <==> (!IsNullOrEmpty(phone) ==> |phone.value| <= 50 && MatchesPhonePattern(phone.value))
  {
    if IsNullOrEmpty(phone) then []
    else
      Check(|phone.value| <= 50, "Phone", "Phone cannot exceed 50 characters.") +
      Check(MatchesPhonePattern(phone.value), "Phone", "Phone must be a valid phone number.")
  }

  function ItemsPerPageFailures(itemsPerPage: int): (r: seq<ValidationFailure>)
    ensures r == [] <==> 1 <= itemsPerPage <= 1000
  {
    Check(itemsPerPage > 0, "Preferences.ItemsPerPage", "Items per page must be greater than 0.") +
    Check(itemsPerPage <= 1000, "Preferences.ItemsPerPage", "Items per page cannot exceed 1000.")
  }

  /** Every rule, as a plain statement about the command. */
  predicate IsValidUserCommand(cmd: CreateUserCommand, emailFormatOk: bool) {
    && !IsNullOrWhiteSpace(Some(cmd.email)) && emailFormatOk && |cmd.email| <= 256
    && !IsNullOrWhiteSpace(Some(cmd.firstName)) && |cmd.firstName| <= 100
    && !IsNullOrWhiteSpace(Some(cmd.lastName)) && |cmd.lastName| <= 100
    && (!IsNullOrEmpty(cmd.phone) ==> |cmd.phone.value| <= 50 && MatchesPhonePattern(cmd.phone.value))
    && WithinLength(cmd.jobTitle, 200) && WithinLength(cmd.department, 100)
    && cmd.preferences.Some? && 1 <= cmd.preferences.value.itemsPerPage <= 1000
  }

  /** `Validate`: the failures in rule order. With null preferences, the `NotNull` failure is
      recorded and then reading `Preferences.ItemsPerPage` throws. */
  function ValidateUser(cmd: CreateUserCommand, emailFormatOk: bool): (r: Result<seq<ValidationFailure>, Error>)
    ensures r.Failure? <==> cmd.preferences.None?
    ensures r.Failure? ==> r.error == NullReference
    ensures r.Success? && r.value == [] ==> emailFormatOk && |cmd.email| <= 256
  {
    var failures :=
      EmailFailures(cmd.email, emailFormatOk) +
      PersonNameFailures(cmd.firstName, "FirstName", "First name") +
      PersonNameFailures(cmd.lastName, "LastName", "Last name") +
      PhoneFailures(cmd.phone) +
      Check(WithinLength(cmd.jobTitle, 200), "JobTitle", "Job title cannot exceed 200 characters.") +
      Check(WithinLength(cmd.department, 100), "Department", "Department cannot exceed 100 characters.");
    if cmd.preferences.None? then Failure(NullReference)
    else Success(failures + ItemsPerPageFailures(cmd.preferences.value.itemsPerPage))
  }

  /** The command passes exactly when every rule holds. */
  lemma ValidateUserIff(cmd: CreateUserCommand, emailFormatOk: bool)
    ensures ValidateUser(cmd, emailFormatOk) == Success([]) <==> IsValidUserCommand(cmd, emailFormatOk)
  {
  }

  /** 0 and 1001 items per page are rejected; the bounds 1 and 1000 are accepted. */
  lemma ItemsPerPageBounds()
    ensures ItemsPerPageFailures(0) != [] && ItemsPerPageFailures(1001) != []
    ensures ItemsPerPageFailures(1) == [] && ItemsPerPageFailures(1000) == []
  {
  }
}
