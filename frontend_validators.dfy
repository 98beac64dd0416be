/**
 * The dashboard's form checks: the e-mail pattern, the URL check (which
 * hands the text to the `URL` constructor, a parameter here) and the lead
 * form's validation.
 */
module FrontendValidators {
  import opened Wrappers
  import PyStrings

  /** What `\s` matches in a JavaScript pattern. */
  predicate JsSpace(c: char) {
    ('\t' <= c <= '\r') || c == ' ' || c == '\U{a0}' || c == '\U{1680}' || ('\U{2000}' <= c <= '\U{200a}')
    || c == '\U{2028}' || c == '\U{2029}' || c == '\U{202f}' || c == '\U{205f}' || c == '\U{3000}' || c == '\U{feff}'
  }

  /** `[^\s@]` */
  predicate Plain(c: char) {
    !JsSpace(c) && c != '@'
  }

  /**
   * `/^[^\s@]+@[^\s@]+\.[^\s@]+$/` matches `e` with its '@' at `at` and the
   * matched dot at `dot`.
   */
  predicate EmailMatchAt(e: string, at: int, dot: int) {
    && 0 < at && at + 1 < dot && dot + 1 < |e|
    && e[at] == '@' && e[dot] == '.'
    && forall k :: 0 <= k < |e| && k != at ==> Plain(e[k])
  }

  /** The pattern matches `e`. */
  ghost predicate MatchesEmailRegex(e: string) {
    exists at, dot :: EmailMatchAt(e, at, dot)
  }

  /** The number of '@' characters in `s`. */
  function AtCount(s: string): nat {
    if s == [] then 0 else (if s[0] == '@' then 1 else 0) + AtCount(s[1..])
  }

  /** The index of the first '@' in `s`, or |s| when there is none. */
  function FirstAt(s: string): (i: nat)
    ensures i <= |s| && (i < |s| ==> s[i] == '@') && forall k :: 0 <= k < i ==> s[k] != '@'
  {
    if s == [] then 0 else if s[0] == '@' then 0 else 1 + FirstAt(s[1..])
  }

  /**
   * `isValidEmail`, read as the pattern requires: exactly one '@', no
   * whitespace, a non-empty part before the '@', and a dot after it that
   * is neither the domain's first nor its last character.
   */
  function IsValidEmail(email: string): bool {
    var at := FirstAt(email);
    && AtCount(email) == 1
    && (forall k :: 0 <= k < |email| ==> !JsSpace(email[k]))
    && at > 0
    && exists dot :: at + 1 < dot < |email| - 1 && email[dot] == '.'
  }

  /** With no '@' before `i`, the count of '@' is the count from `i` on. */
  lemma {:induction false} AtCountFrom(s: string, i: nat)
    requires i <= |s| && forall k :: 0 <= k < i ==> s[k] != '@'
    ensures AtCount(s) == AtCount(s[i..])
  {
    if i > 0 {
      AtCountFrom(s[1..], i - 1);
      assert s[1..][i - 1..] == s[i..];
    }
  }

  /** A text with no '@' has an '@' count of zero, and one with some '@' a positive count. */
  lemma {:induction false} AtCountZero(s: string)
    ensures AtCount(s) == 0 <==> forall k :: 0 <= k < |s| ==> s[k] != '@'
  {
    if s != [] {
      AtCountZero(s[1..]);
      assert forall k :: 1 <= k < |s| ==> s[1..][k - 1] == s[k];
    }
  }

  /** The '@' count is one exactly when the first '@' is the only one. */
  lemma {:induction false} AtCountOne(s: string)
    ensures AtCount(s) == 1 <==> FirstAt(s) < |s| && forall k :: FirstAt(s) < k < |s| ==> s[k] != '@'
  {
    var at := FirstAt(s);
    AtCountFrom(s, at);
    if at < |s| {
      var rest := s[at..];
      assert rest[0] == '@';
      assert AtCount(rest) == 1 + AtCount(rest[1..]);
      AtCountZero(rest[1..]);
      assert |rest[1..]| == |s| - at - 1;
      assert forall k :: at < k < |s| ==> s[k] == rest[1..][k - at - 1];
      assert forall j :: 0 <= j < |rest[1..]| ==> rest[1..][j] == s[at + 1 + j];
    } else {
      assert s[at..] == [];
      assert AtCount(s[at..]) == 0;
    }
  }

  /** The function and the pattern agree on every text. */
  lemma IsValidEmailIff(email: string)
    ensures IsValidEmail(email) <==> MatchesEmailRegex(email)
  {
    AtCountOne(email);
    var at := FirstAt(email);
    if IsValidEmail(email) {
      var dot :| at + 1 < dot < |email| - 1 && email[dot] == '.';
      assert EmailMatchAt(email, at, dot);
    }
    if MatchesEmailRegex(email) {
      var a, dot :| EmailMatchAt(email, a, dot);
      assert email[a] == '@';
      assert at == a;
      forall k | 0 <= k < |email| ensures !JsSpace(email[k]) {
        if k != a { assert Plain(email[k]); }
      }
    }
  }

  /** The text `isValidUrl` hands to `new URL(...)`: itself when it starts with "http", else with "https://" in front. */
  function UrlCandidate(url: string): (r: string)
    ensures PyStrings.StartsWith(r, "http")
  {
    if PyStrings.StartsWith(url, "http") then url else "https://" + url
  }

  /** `isValidUrl`, with `parses` telling whether the `URL` constructor accepts a text. */
  function IsValidUrl(url: string, parses: string -> bool): bool {
    parses(UrlCandidate(url))
  }

  /** The form fields `validateLeadForm` looks at; None is a missing or null field. */
  datatype LeadForm = LeadForm(companyName: Option<string>, companyWebsite: Option<string>)

  datatype ValidationResult = ValidationResult(valid: bool, errors: map<string, string>)

  /** JavaScript truthiness of an optional text: present and non-empty. */
  predicate Given(field: Option<string>) {
    field.Some? && field.value != ""
  }

  /**
   * `validateLeadForm`: a company name is required; a website, when one is
   * given, must pass the URL check; the form is valid exactly when no error
   * was recorded.
   */
  method ValidateLeadForm(data: LeadForm, parses: string -> bool) returns (r: ValidationResult)
    ensures r.valid <==> r.errors == map[]
    ensures r.valid <==> Given(data.companyName) && (!Given(data.companyWebsite) || IsValidUrl(data.companyWebsite.value, parses))
    ensures r.errors.Keys <= {"company_name", "company_website"}
    ensures "company_name" in r.errors <==> !Given(data.companyName)
    ensures "company_website" in r.errors <==> Given(data.companyWebsite) && !IsValidUrl(data.companyWebsite.value, parses)
    ensures "company_name" in r.errors ==> r.errors["company_name"] == "Company name is required"
    ensures "company_website" in r.errors ==> r.errors["company_website"] == "Invalid URL"
  {
    var errors: map<string, string> := map[];
    if !Given(data.companyName) {
      errors := errors["company_name" := "Company name is required"];
    }
    if Given(data.companyWebsite) && !IsValidUrl(data.companyWebsite.value, parses) {
      errors := errors["company_website" := "Invalid URL"];
    }
    r := ValidationResult(|errors| == 0, errors);
  }
}
