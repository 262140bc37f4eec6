/** `CreateTenantCommand` and the rules `CreateTenantCommandValidator` checks before the handler
    runs. */
module TenantValidation {
  import opened Wrappers
  import opened Common
  import opened Text
  import opened DomainTenant

  /** The command; its `Settings` DTO has exactly the fields of `TenantSettings`. A null
      `Settings` is possible when the caller sends one. */
  datatype CreateTenantCommand = CreateTenantCommand(
    name: string, subdomain: Option<string>, website: Option<string>, industry: Option<string>,
    settings: Option<TenantSettings>)

  /** A failed rule: the property it is about and its message. */
  datatype ValidationFailure = ValidationFailure(property: string, message: string)

  /** The failures one rule adds: none when it holds. */
  function Check(holds: bool, property: string, message: string): (r: seq<ValidationFailure>)
    ensures r == [] <==> holds
    ensures !holds ==> r == [ValidationFailure(property, message)]
  {
    if holds then [] else [ValidationFailure(property, message)]
  }

  /** `MaximumLength(n)`: a null value passes. */
  predicate WithinLength(s: Option<string>, n: nat) {
    s.None? || |s.value| <= n
  }

  // ---------------------------------------------------------------- ^[a-z0-9]([a-z0-9\-]*[a-z0-9])?$

  predicate IsLowerAlnum(c: char) {
    ('a' <= c <= 'z') || ('0' <= c <= '9')
  }

  predicate IsSubdomainChar(c: char) {
    IsLowerAlnum(c) || c == '-'
  }

  /** `[a-z0-9\-]*[a-z0-9]`, the whole of `s`. */
  predicate MatchesHyphenTail(s: string)
    ensures MatchesHyphenTail(s) ==> s != [] && IsLowerAlnum(s[|s| - 1])
    decreases |s|
  {
    s != [] && (if |s| == 1 then IsLowerAlnum(s[0]) else IsSubdomainChar(s[0]) && MatchesHyphenTail(s[1..]))
  }

  /** The subdomain pattern, the whole of `s`: one alphanumeric, then optionally the tail. */
  predicate MatchesSubdomainPattern(s: string)
    ensures MatchesSubdomainPattern(s) ==> s != [] && IsLowerAlnum(s[0]) && IsLowerAlnum(s[|s| - 1])
  {
    s != [] && IsLowerAlnum(s[0]) && (|s| == 1 || MatchesHyphenTail(s[1..]))
  }

  /** The language of the subdomain pattern without the regular expression: lower-case letters,
      digits and hyphens, neither first nor last a hyphen. */
  predicate IsSubdomainLabel(s: string) {
    s != [] && (forall i :: 0 <= i < |s| ==> IsSubdomainChar(s[i])) && s[0] != '-' && s[|s| - 1] != '-'
  }

  lemma {:induction false} HyphenTailIff(s: string)
    ensures MatchesHyphenTail(s) <==>
              s != [] && (forall i :: 0 <= i < |s| ==> IsSubdomainChar(s[i])) && IsLowerAlnum(s[|s| - 1])
    decreases |s|
  {
    if |s| > 1 {
      HyphenTailIff(s[1..]);
      assert forall i :: 1 <= i < |s| ==> s[i] == s[1..][i - 1];
    }
  }

  /** The pattern accepts exactly the subdomain labels. */
  lemma SubdomainPatternIff(s: string)
    ensures MatchesSubdomainPattern(s) <==> IsSubdomainLabel(s)
  {
    if |s| > 1 {
      HyphenTailIff(s[1..]);
      assert forall i :: 1 <= i < |s| ==> s[i] == s[1..][i - 1];
    }
  }

  lemma SubdomainPatternExamples()
    ensures MatchesSubdomainPattern("a") && MatchesSubdomainPattern("a-b")
    ensures !MatchesSubdomainPattern("-a") && !MatchesSubdomainPattern("a-") && !MatchesSubdomainPattern("A")
    ensures !MatchesSubdomainPattern("")
  {
    SubdomainPatternIff("a-");
  }

  // ---------------------------------------------------------------- the rules

  /** `BeAValidUrl`: true for a null or empty URL; otherwise the verdict of `Uri.TryCreate` with
      an http or https scheme, which is an input here. */
  function BeAValidUrl(url: Option<string>, isAbsoluteHttpUrl: bool): (ok: bool)
    ensures IsNullOrEmpty(url) ==> ok
    ensures !IsNullOrEmpty(url) ==> (ok <==> isAbsoluteHttpUrl)
  {
    if IsNullOrEmpty(url) then true else isAbsoluteHttpUrl
  }

  function NameFailures(name: string): (r: seq<ValidationFailure>)
    ensures r == [] <==> !IsNullOrWhiteSpace(Some(name)) && |name| <= 200
  {
    Check(!IsNullOrWhiteSpace(Some(name)), "Name", "Tenant name is required.") +
    Check(|name| <= 200, "Name", "Tenant name cannot exceed 200 characters.")
  }

  const SubdomainPatternMessage: string :=
    "Subdomain must contain only lowercase letters, numbers, and hyphens, and cannot start or end with a hyphen."

  /** The `When` guards both rules of the chain, so an empty subdomain is not checked at all. */
  function SubdomainFailures(subdomain: Option<string>): (r: seq<ValidationFailure>)
    ensures r == [] <==> (!IsNullOrEmpty(subdomain) ==> |subdomain.value| <= 100 && IsSubdomainLabel(subdomain.value))
  {
    if IsNullOrEmpty(subdomain) then []
    else
      SubdomainPatternIff(subdomain.value);
      Check(|subdomain.value| <= 100, "Subdomain", "Subdomain cannot exceed 100 characters.") +
      Check(MatchesSubdomainPattern(subdomain.value), "Subdomain", SubdomainPatternMessage)
  }

  function WebsiteFailures(website: Option<string>, isAbsoluteHttpUrl: bool): (r: seq<ValidationFailure>)
    ensures r == [] <==> (!IsNullOrEmpty(website) ==> |website.value| <= 500 && isAbsoluteHttpUrl)
  {
    if IsNullOrEmpty(website) then []
    else
      Check(|website.value| <= 500, "Website", "Website cannot exceed 500 characters.") +
      Check(BeAValidUrl(website, isAbsoluteHttpUrl), "Website", "Website must be a valid URL.")
  }

  function IndustryFailures(industry: Option<string>): (r: seq<ValidationFailure>)
    ensures r == [] <==> WithinLength(industry, 100)
  {
    Check(WithinLength(industry, 100), "Industry", "Industry cannot exceed 100 characters.")
  }

  function LimitFailures(settings: TenantSettings): (r: seq<ValidationFailure>)
    ensures r == [] <==> settings.maxUsers > 0 && settings.maxStorageBytes > 0 && settings.maxApiCallsPerMonth > 0
  {
    Check(settings.maxUsers > 0, "Settings.MaxUsers", "Max users must be greater than 0.") +
    Check(settings.maxStorageBytes > 0, "Settings.MaxStorageBytes", "Max storage bytes must be greater than 0.") +
    Check(settings.maxApiCallsPerMonth > 0, "Settings.MaxApiCallsPerMonth", "Max API calls per month must be greater than 0.")
  }

  /** Every rule, as a plain statement about the command. */
  predicate IsValidCommand(cmd: CreateTenantCommand, isAbsoluteHttpUrl: bool) {
    && !IsNullOrWhiteSpace(Some(cmd.name)) && |cmd.name| <= 200
    && (!IsNullOrEmpty(cmd.subdomain) ==> |cmd.subdomain.value| <= 100 && IsSubdomainLabel(cmd.subdomain.value))
    && (!IsNullOrEmpty(cmd.website) ==> |cmd.website.value| <= 500 && isAbsoluteHttpUrl)
    && WithinLength(cmd.industry, 100)
    && cmd.settings.Some?
    && cmd.settings.value.maxUsers > 0 && cmd.settings.value.maxStorageBytes > 0
    && cmd.settings.value.maxApiCallsPerMonth > 0
  }

  /** `Validate`: the failures in rule order. With null settings, the `NotNull` failure is
      recorded and then reading `Settings.MaxUsers` throws. */
  function Validate(cmd: CreateTenantCommand, isAbsoluteHttpUrl: bool): (r: Result<seq<ValidationFailure>, Error>)
    ensures r.Failure? <==> cmd.settings.None?
    ensures r.Failure? ==> r.error == NullReference
    ensures r.Success? && r.value == [] ==> |cmd.name| <= 200 && WithinLength(cmd.industry, 100)
  {
    var failures := NameFailures(cmd.name) + SubdomainFailures(cmd.subdomain) +
                    WebsiteFailures(cmd.website, isAbsoluteHttpUrl) + IndustryFailures(cmd.industry);
    if cmd.settings.None? then Failure(NullReference)
    else Success(failures + LimitFailures(cmd.settings.value))
  }

  /** The command passes exactly when every rule holds. */
  lemma ValidateIff(cmd: CreateTenantCommand, isAbsoluteHttpUrl: bool)
    ensures Validate(cmd, isAbsoluteHttpUrl) == Success([]) <==> IsValidCommand(cmd, isAbsoluteHttpUrl)
  {
  }

  /** Each settings limit must be strictly positive: a zero limit fails its rule. */
  lemma LimitsMustBePositive(settings: TenantSettings)
    ensures settings.maxUsers == 0 ==> ValidationFailure("Settings.MaxUsers", "Max users must be greater than 0.") in LimitFailures(settings)
  {
  }
}
