/**
 * The client-side form validators of src/utils/validation.ts: one function
 * per field returning the first failed rule's error or nothing, the form
 * validators that collect those errors in field order, and the two lookups
 * a form uses to show them.
 */
module Validation {
  import opened Common
  import opened Text
  import Decimal
  import opened Storefront

  /** `{ field, message }`. */
  datatype FieldError = FieldError(field: string, message: string)

  /** `{ isValid, errors }`. */
  datatype ValidationResult = ValidationResult(isValid: bool, errors: seq<FieldError>)

  // ---------------------------------------------------------------------------
  // E-mail

  /** Neither whitespace nor '@': the class `[^\s@]`. */
  predicate PlainChar(c: char)
  {
    !IsSpace(c) && c != '@'
  }

  /**
   * `/^[^\s@]+@[^\s@]+\.[^\s@]+$/` matched with its '@' at `at` and the
   * '.' at `dot`: plain characters everywhere else, at least one before the
   * '@', and at least one on each side of the '.' after the '@'.
   */
  predicate EmailSplit(s: string, at: int, dot: int)
  {
    && 1 <= at && at + 2 <= dot <= |s| - 2
    && s[at] == '@' && s[dot] == '.'
    && forall i | 0 <= i < |s| && i != at :: PlainChar(s[i])
  }

  /** `/^[^\s@]+@[^\s@]+\.[^\s@]+$/`: the address splits that way somewhere. */
  predicate EmailPattern(s: string)
  {
    exists at, dot | 0 <= at < |s| && 0 <= dot < |s| :: EmailSplit(s, at, dot)
  }

  function ValidateEmail(email: string): (r: Option<FieldError>)
    ensures r.Some? ==> r.value.field == "email"
    ensures r.None? <==> email != "" && EmailPattern(email)
  {
    if email == "" then Some(FieldError("email", "Email is required"))
    else if !EmailPattern(email) then Some(FieldError("email", "Please enter a valid email address"))
    else None
  }

  /** How many times `c` occurs in `s`. */
  function Occurrences(s: string, c: char): nat
  {
    if s == [] then 0 else Occurrences(s[..|s| - 1], c) + (if s[|s| - 1] == c then 1 else 0)
  }

  lemma {:induction false} NoOccurrences(s: string, c: char)
    requires forall i :: 0 <= i < |s| ==> s[i] != c
    ensures Occurrences(s, c) == 0
  {
    if s != [] {
      NoOccurrences(s[..|s| - 1], c);
    }
  }

  /**
   * An accepted address has exactly one '@', with a non-empty local part
   * before it, no whitespace anywhere, and a '.' in the domain that neither
   * starts nor ends it.
   */
  lemma AcceptedEmailShape(email: string)
    requires ValidateEmail(email).None?
    ensures Occurrences(email, '@') == 1
    ensures forall i :: 0 <= i < |email| ==> !IsSpace(email[i])
    ensures exists at :: 1 <= at < |email| && email[at] == '@' && '.' in email[at + 2..|email| - 1]
  {
    assert EmailPattern(email);
    var at, dot :| 0 <= at < |email| && 0 <= dot < |email| && EmailSplit(email, at, dot);
    SplitShape(email, at, dot);
  }

  /** The shape of an address split at `at` and `dot`. */
  lemma SplitShape(s: string, at: int, dot: int)
    requires EmailSplit(s, at, dot)
    ensures Occurrences(s, '@') == 1
    ensures forall i :: 0 <= i < |s| ==> !IsSpace(s[i])
    ensures 1 <= at < |s| && s[at] == '@' && '.' in s[at + 2..|s| - 1]
  {
    OneAt(s, at);
    SplitHasNoSpace(s, at, dot);
    var domain := s[at + 2..|s| - 1];
    assert domain[dot - at - 2] == '.';
  }

  lemma SplitHasNoSpace(s: string, at: int, dot: int)
    requires EmailSplit(s, at, dot)
    ensures forall i :: 0 <= i < |s| ==> !IsSpace(s[i])
  {
    forall i | 0 <= i < |s|
      ensures !IsSpace(s[i])
    {
      if i != at {
        assert PlainChar(s[i]);
      }
    }
  }

  /** A string whose only '@' is at `at` has one '@'. */
  lemma OneAt(s: string, at: nat)
    requires at < |s| && s[at] == '@'
    requires forall i | 0 <= i < |s| && i != at :: PlainChar(s[i])
    ensures Occurrences(s, '@') == 1
  {
    var before, after := s[..at], s[at + 1..];
    assert s == before + [s[at]] + after;
    assert forall i :: 0 <= i < |before| ==> before[i] == s[i];
    assert forall i :: 0 <= i < |after| ==> after[i] == s[at + 1 + i];
    NoOccurrences(before, '@');
    NoOccurrences(after, '@');
    OccurrencesAppend(before + [s[at]], after, '@');
    OccurrencesAppend(before, [s[at]], '@');
    assert [s[at]][..0] == [];
  }

  lemma {:induction false} OccurrencesAppend(s: string, t: string, c: char)
    ensures Occurrences(s + t, c) == Occurrences(s, c) + Occurrences(t, c)
  {
    if t != [] {
      assert (s + t)[..|s + t| - 1] == s + t[..|t| - 1];
      OccurrencesAppend(s, t[..|t| - 1], c);
    } else {
      assert s + t == s;
    }
  }

  // ---------------------------------------------------------------------------
  // Password

  const PasswordRequired := FieldError("password", "Password is required")
  const PasswordTooShort := FieldError("password", "Password must be at least 6 characters long")
  const PasswordNoLower := FieldError("password", "Password must contain at least one lowercase letter")
  const PasswordNoUpper := FieldError("password", "Password must contain at least one uppercase letter")
  const PasswordNoDigit := FieldError("password", "Password must contain at least one number")

  function ValidatePassword(password: string): (r: Option<FieldError>)
    ensures r.Some? ==> r.value.field == "password"
  {
    if password == "" then Some(PasswordRequired)
    else if Utf16Length(password) < 6 then Some(PasswordTooShort)
    else if !Exists(password, IsLower) then Some(PasswordNoLower)
    else if !Exists(password, IsUpper) then Some(PasswordNoUpper)
    else if !Exists(password, IsDigit) then Some(PasswordNoDigit)
    else None
  }

  /**
   * A password is accepted exactly when it has six or more UTF-16 code
   * units (its `.length`) with a lower-case letter, an upper-case letter
   * and a digit; otherwise the error names the first rule, in the order
   * required, length, lower, upper, digit, that fails.
   */
  lemma PasswordRules(password: string)
    ensures ValidatePassword(password).None? <==>
      Utf16Length(password) >= 6 && Exists(password, IsLower) && Exists(password, IsUpper) && Exists(password, IsDigit)
    ensures ValidatePassword(password) == Some(PasswordTooShort) <==> 1 <= Utf16Length(password) < 6
    ensures ValidatePassword(password) == Some(PasswordNoLower) <==> Utf16Length(password) >= 6 && !Exists(password, IsLower)
    ensures ValidatePassword(password) == Some(PasswordNoUpper) <==>
      Utf16Length(password) >= 6 && Exists(password, IsLower) && !Exists(password, IsUpper)
    ensures ValidatePassword(password) == Some(PasswordNoDigit) <==>
      Utf16Length(password) >= 6 && Exists(password, IsLower) && Exists(password, IsUpper) && !Exists(password, IsDigit)
  {
  }

  // ---------------------------------------------------------------------------
  // Name, address, city, state

  /** `/^[a-zA-Z\s]+$/` on a non-empty string. */
  predicate LettersAndSpaces(s: string)
  {
    forall i | 0 <= i < |s| :: IsLetter(s[i]) || IsSpace(s[i])
  }

  function ValidateName(name: string): (r: Option<FieldError>)
    ensures r.Some? ==> r.value.field == "name"
    ensures r.None? <==> 2 <= Utf16Length(Trim(name)) <= 50 && LettersAndSpaces(name)
  {
    if name == "" then Some(FieldError("name", "Name is required"))
    else if Utf16Length(Trim(name)) < 2 then Some(FieldError("name", "Name must be at least 2 characters long"))
    else if Utf16Length(Trim(name)) > 50 then Some(FieldError("name", "Name cannot exceed 50 characters"))
    else if !LettersAndSpaces(name) then Some(FieldError("name", "Name can only contain letters and spaces"))
    else None
  }

  function ValidateAddress(address: string): (r: Option<FieldError>)
    ensures r.Some? ==> r.value.field == "address"
    ensures r.None? <==> 10 <= Utf16Length(Trim(address)) <= 200
  {
    if address == "" then Some(FieldError("address", "Address is required"))
    else if Utf16Length(Trim(address)) < 10 then Some(FieldError("address", "Address must be at least 10 characters long"))
    else if Utf16Length(Trim(address)) > 200 then Some(FieldError("address", "Address cannot exceed 200 characters"))
    else None
  }

  function ValidateCity(city: string): (r: Option<FieldError>)
    ensures r.Some? ==> r.value.field == "city"
    ensures r.None? <==> Utf16Length(Trim(city)) >= 2 && LettersAndSpaces(city)
  {
    if city == "" then Some(FieldError("city", "City is required"))
    else if Utf16Length(Trim(city)) < 2 then Some(FieldError("city", "City name must be at least 2 characters long"))
    else if !LettersAndSpaces(city) then Some(FieldError("city", "City name can only contain letters and spaces"))
    else None
  }

  function ValidateState(state: string): (r: Option<FieldError>)
    ensures r.Some? ==> r.value.field == "state"
    ensures r.None? <==> Utf16Length(Trim(state)) >= 2
  {
    if state == "" then Some(FieldError("state", "State is required"))
    else if Utf16Length(Trim(state)) < 2 then Some(FieldError("state", "State name must be at least 2 characters long"))
    else None
  }

  /** Whitespace alone is never a valid name, address, city or state: trimming leaves nothing. */
  lemma BlankFieldsRejected(s: string)
    requires s != [] && forall i :: 0 <= i < |s| ==> IsSpace(s[i])
    ensures ValidateName(s).Some? && ValidateAddress(s).Some? && ValidateCity(s).Some? && ValidateState(s).Some?
  {
    TrimAllSpace(s);
  }

  // ---------------------------------------------------------------------------
  // Phone

  /** The characters `/[\s\-\(\)]/g` removes. */
  predicate PhoneFormatting(c: char)
  {
    IsSpace(c) || c == '-' || c == '(' || c == ')'
  }

  /** `phone.replace(/[\s\-\(\)]/g, '')`. */
  function StripPhone(phone: string): (r: string)
    ensures |r| <= |phone|
    ensures forall i :: 0 <= i < |r| ==> !PhoneFormatting(r[i])
  {
    if phone == [] then []
    else
      var rest := StripPhone(phone[..|phone| - 1]);
      var c := phone[|phone| - 1];
      if PhoneFormatting(c) then rest else rest + [c]
  }

  /** Stripping twice is stripping once. */
  lemma {:induction false} StripPhoneIdempotent(phone: string)
    ensures StripPhone(StripPhone(phone)) == StripPhone(phone)
  {
    StripPhoneClean(StripPhone(phone));
  }

  lemma {:induction false} StripPhoneClean(s: string)
    requires forall i :: 0 <= i < |s| ==> !PhoneFormatting(s[i])
    ensures StripPhone(s) == s
  {
    if s != [] {
      StripPhoneClean(s[..|s| - 1]);
      assert s[..|s| - 1] + [s[|s| - 1]] == s;
    }
  }

  /** The part of a cleaned number after an optional leading '+'. */
  function PhoneDigits(s: string): (d: string)
    ensures |s| >= 1 && s[0] == '+' ==> d == s[1..]
    ensures !(|s| >= 1 && s[0] == '+') ==> d == s
  {
    if |s| >= 1 && s[0] == '+' then s[1..] else s
  }

  /** `/^[\+]?[1-9][\d]{0,15}$/`. */
  predicate PhonePattern(s: string)
  {
    var digits := PhoneDigits(s);
    1 <= |digits| <= 16 && '1' <= digits[0] <= '9' && Decimal.AllDigits(digits)
  }

  function ValidatePhone(phone: string): (r: Option<FieldError>)
    ensures r.Some? ==> r.value.field == "phone"
  {
    var clean := StripPhone(phone);
    if phone == "" then Some(FieldError("phone", "Phone number is required"))
    else if !PhonePattern(clean) then Some(FieldError("phone", "Please enter a valid phone number"))
    else if Utf16Length(clean) < 10 || Utf16Length(clean) > 15 then Some(FieldError("phone", "Phone number must be between 10 and 15 digits"))
    else None
  }

  /**
   * An accepted number is, once spaces, dashes and brackets are dropped,
   * 10 to 15 characters: an optional '+' and then digits, the first not
   * zero.
   */
  lemma PhoneRules(phone: string)
    ensures var clean := StripPhone(phone);
      ValidatePhone(phone).None? <==>
        && 10 <= |clean| <= 15
        && (clean[0] == '+' ==> '1' <= clean[1] <= '9' && forall i :: 1 <= i < |clean| ==> IsDigit(clean[i]))
        && (clean[0] != '+' ==> '1' <= clean[0] <= '9' && forall i :: 0 <= i < |clean| ==> IsDigit(clean[i]))
  {
    var clean := StripPhone(phone);
    assert ValidatePhone(phone).None? <==> PhonePattern(clean) && 10 <= |clean| <= 15 by {
      if phone == "" {
        assert clean == [];
      }
      if PhonePattern(clean) {
        PatternIsBmp(clean);
        Utf16LengthOfBmp(clean);
      }
    }
    if 10 <= |clean| <= 15 && clean[0] == '+' {
      var digits := clean[1..];
      assert Decimal.AllDigits(digits) <==> (forall i :: 1 <= i < |clean| ==> IsDigit(clean[i])) by {
        forall i | 1 <= i < |clean| ensures clean[i] == digits[i - 1] { }
      }
    }
  }

  /** The pattern admits only '+' and digits, each one UTF-16 code unit. */
  lemma PatternIsBmp(s: string)
    requires PhonePattern(s)
    ensures InBmp(s)
  {
    var digits := PhoneDigits(s);
    forall i | 0 <= i < |s|
      ensures !Astral(s[i])
    {
      if s[0] == '+' && i > 0 {
        assert s[i] == digits[i - 1];
      }
    }
  }

  /** Formatting characters never change the verdict on a number that has any other character. */
  lemma PhoneFormattingIgnored(phone: string)
    requires StripPhone(phone) != ""
    ensures ValidatePhone(phone) == ValidatePhone(StripPhone(phone))
  {
    StripPhoneIdempotent(phone);
    assert phone != "";
  }

  // ---------------------------------------------------------------------------
  // PIN code

  /** `/^[1-9][0-9]{5}$/`. */
  predicate PincodePattern(s: string)
  {
    |s| == 6 && '1' <= s[0] <= '9' && forall i | 1 <= i < 6 :: '0' <= s[i] <= '9'
  }

  function ValidatePincode(pincode: string): (r: Option<FieldError>)
    ensures r.Some? ==> r.value.field == "pincode"
    ensures r.None? <==> PincodePattern(pincode)
  {
    if pincode == "" then Some(FieldError("pincode", "PIN code is required"))
    else if !PincodePattern(pincode) then Some(FieldError("pincode", "Please enter a valid 6-digit PIN code"))
    else None
  }

  /** The accepted PIN codes are exactly the decimal forms of 100000..999999. */
  lemma PincodesAreSixDigitNumbers(pincode: string, n: nat)
    ensures ValidatePincode(pincode).None? ==>
      Decimal.AllDigits(pincode) && 100000 <= Decimal.ParseDigits(pincode) <= 999999
    ensures 100000 <= n <= 999999 ==> ValidatePincode(Decimal.NatToString(n)).None?
  {
    assert Decimal.Pow10(5) == 100000 && Decimal.Pow10(6) == 1000000 by {
      assert Decimal.Pow10(1) == 10;
      assert Decimal.Pow10(2) == 100;
      assert Decimal.Pow10(3) == 1000;
      assert Decimal.Pow10(4) == 10000;
    }
    if ValidatePincode(pincode).None? {
      assert Decimal.AllDigits(pincode);
      ParseSixDigits(pincode);
    }
    if 100000 <= n <= 999999 {
      Decimal.NatToStringLength(n, 6);
    }
  }

  /** Six digits with a non-zero first digit read as a number from 100000 to 999999. */
  lemma ParseSixDigits(s: string)
    requires PincodePattern(s) && Decimal.AllDigits(s)
    ensures 100000 <= Decimal.ParseDigits(s) <= 999999
  {
    assert Decimal.Pow10(5) == 100000 && Decimal.Pow10(6) == 1000000 by {
      assert Decimal.Pow10(1) == 10;
      assert Decimal.Pow10(2) == 100;
      assert Decimal.Pow10(3) == 1000;
      assert Decimal.Pow10(4) == 10000;
    }
    Decimal.ParseBelow(s);
    Decimal.ParseAtLeast(s);
  }

  // ---------------------------------------------------------------------------
  // Forms

  /** The errors that are present, in order. */
  function Present(checks: seq<Option<FieldError>>): (errors: seq<FieldError>)
    ensures |errors| <= |checks|
  {
    if checks == [] then []
    else Present(checks[..|checks| - 1]) + (if checks[|checks| - 1].Some? then [checks[|checks| - 1].value] else [])
  }

  /** Where each collected error came from: the positions of the failed checks, in order. */
  function FailedAt(checks: seq<Option<FieldError>>): (idx: seq<nat>)
    ensures |idx| == |Present(checks)|
    ensures forall k :: 0 <= k < |idx| ==> idx[k] < |checks| && checks[idx[k]] == Some(Present(checks)[k])
    ensures forall k, l :: 0 <= k < l < |idx| ==> idx[k] < idx[l]
  {
    if checks == [] then []
    else
      var init := checks[..|checks| - 1];
      var rest := FailedAt(init);
      assert forall k :: 0 <= k < |rest| ==> checks[rest[k]] == init[rest[k]];
      if checks[|checks| - 1].Some? then rest + [|checks| - 1] else rest
  }

  function Outcome(errors: seq<FieldError>): (r: ValidationResult)
    ensures r.errors == errors && (r.isValid <==> errors == [])
  {
    ValidationResult(|errors| == 0, errors)
  }

  /** One check per field of `order`, each failing only with an error for its own field. */
  predicate Labelled(checks: seq<Option<FieldError>>, order: seq<string>)
  {
    |checks| == |order| && forall j :: 0 <= j < |checks| && checks[j].Some? ==> checks[j].value.field == order[j]
  }

  predicate Distinct(order: seq<string>)
  {
    forall i, j :: 0 <= i < j < |order| ==> order[i] != order[j]
  }

  /** The fields of `errors` appear in `order`, strictly in its order (so each at most once). */
  ghost predicate FieldsInOrder(errors: seq<FieldError>, order: seq<string>)
  {
    exists idx: seq<nat> ::
      && |idx| == |errors|
      && (forall k :: 0 <= k < |idx| ==> idx[k] < |order| && errors[k].field == order[idx[k]])
      && (forall k, l :: 0 <= k < l < |idx| ==> idx[k] < idx[l])
  }

  /**
   * A form whose checks are labelled with distinct fields is valid exactly
   * when every check passes, reports its errors in field order, at most one
   * per field, and reports a field exactly when that field's check failed.
   */
  lemma FormErrors(checks: seq<Option<FieldError>>, order: seq<string>)
    requires Labelled(checks, order) && Distinct(order)
    ensures Present(checks) == [] <==> forall j :: 0 <= j < |checks| ==> checks[j].None?
    ensures FieldsInOrder(Present(checks), order)
    ensures forall j :: 0 <= j < |order| ==> (HasFieldError(Present(checks), order[j]) <==> checks[j].Some?)
  {
    var errors, idx := Present(checks), FailedAt(checks);
    assert forall k :: 0 <= k < |idx| ==> errors[k].field == order[idx[k]];
    PresentEmpty(checks);
    forall j | 0 <= j < |order|
      ensures HasFieldError(errors, order[j]) <==> checks[j].Some?
    {
      if HasFieldError(errors, order[j]) {
        var k :| 0 <= k < |errors| && errors[k].field == order[j];
        assert order[idx[k]] == order[j];
        assert idx[k] == j;
      }
      if checks[j].Some? {
        FailedIncluded(checks, j);
      }
    }
  }

  /** One field of a labelled form is reported exactly when its own check failed. */
  lemma FieldReported(checks: seq<Option<FieldError>>, order: seq<string>, j: nat)
    requires Labelled(checks, order) && Distinct(order) && j < |order|
    ensures HasFieldError(Present(checks), order[j]) <==> checks[j].Some?
  {
    FormErrors(checks, order);
  }

  /** Every failed check contributes its error. */
  lemma {:induction false} FailedIncluded(checks: seq<Option<FieldError>>, j: nat)
    requires j < |checks| && checks[j].Some?
    ensures exists k :: 0 <= k < |Present(checks)| && Present(checks)[k] == checks[j].value
  {
    var init := checks[..|checks| - 1];
    if j == |checks| - 1 {
      assert Present(checks)[|Present(checks)| - 1] == checks[j].value;
    } else {
      FailedIncluded(init, j);
      var k :| 0 <= k < |Present(init)| && Present(init)[k] == init[j].value;
      assert Present(checks)[k] == Present(init)[k];
    }
  }

  /** Nothing is collected exactly when every check passed. */
  lemma {:induction false} PresentEmpty(checks: seq<Option<FieldError>>)
    ensures Present(checks) == [] <==> forall k :: 0 <= k < |checks| ==> checks[k].None?
  {
    if checks != [] {
      PresentEmpty(checks[..|checks| - 1]);
    }
  }

  function ValidateLoginForm(email: string, password: string): ValidationResult
  {
    Outcome(Present([ValidateEmail(email), if password == "" then Some(PasswordRequired) else None]))
  }

  /** Login only asks for a well-formed e-mail and some password; the password rules are not applied. */
  lemma LoginRules(email: string, password: string)
    ensures ValidateLoginForm(email, password).isValid <==> ValidateEmail(email).None? && password != ""
  {
    var checks := [ValidateEmail(email), if password == "" then Some(PasswordRequired) else None];
    PresentEmpty(checks);
    assert (forall k :: 0 <= k < |checks| ==> checks[k].None?) <==> checks[0].None? && checks[1].None?;
  }

  function RegistrationChecks(name: string, email: string, password: string, confirmPassword: string,
                              phone: Option<string>): seq<Option<FieldError>>
  {
    [ValidateName(name),
     ValidateEmail(email),
     ValidatePassword(password),
     if password != confirmPassword then Some(FieldError("confirmPassword", "Passwords do not match")) else None,
     if Truthy(phone) then ValidatePhone(phone.value) else None]
  }

  const RegistrationFields: seq<string> := ["name", "email", "password", "confirmPassword", "phone"]

  function ValidateRegistrationForm(name: string, email: string, password: string, confirmPassword: string,
                                    phone: Option<string>): ValidationResult
  {
    Outcome(Present(RegistrationChecks(name, email, password, confirmPassword, phone)))
  }

  /**
   * Registration reports a password mismatch exactly when the two passwords
   * differ, checks the phone only when one was entered, and is valid only
   * with a valid name, e-mail and password typed twice alike.
   */
  lemma RegistrationRules(name: string, email: string, password: string, confirmPassword: string, phone: Option<string>)
    ensures var r := ValidateRegistrationForm(name, email, password, confirmPassword, phone);
      && (HasFieldError(r.errors, "confirmPassword") <==> password != confirmPassword)
      && (!Truthy(phone) ==> !HasFieldError(r.errors, "phone"))
      && (Truthy(phone) ==> (HasFieldError(r.errors, "phone") <==> ValidatePhone(phone.value).Some?))
      && (r.isValid <==> ValidateName(name).None? && ValidateEmail(email).None? && ValidatePassword(password).None?
                         && password == confirmPassword && (Truthy(phone) ==> ValidatePhone(phone.value).None?))
  {
    var checks := RegistrationChecks(name, email, password, confirmPassword, phone);
    var errors := Present(checks);
    assert ValidateRegistrationForm(name, email, password, confirmPassword, phone) == Outcome(errors);
    RegistrationLabelled(name, email, password, confirmPassword, phone);
    RegistrationFieldsDistinct();
    FieldReported(checks, RegistrationFields, 3);
    FieldReported(checks, RegistrationFields, 4);
    PresentEmpty(checks);
    assert (forall j :: 0 <= j < |checks| ==> checks[j].None?) <==>
      checks[0].None? && checks[1].None? && checks[2].None? && checks[3].None? && checks[4].None?;
  }

  lemma RegistrationLabelled(name: string, email: string, password: string, confirmPassword: string, phone: Option<string>)
    ensures Labelled(RegistrationChecks(name, email, password, confirmPassword, phone), RegistrationFields)
  {
    var checks := RegistrationChecks(name, email, password, confirmPassword, phone);
    forall j | 0 <= j < |checks| && checks[j].Some? ensures checks[j].value.field == RegistrationFields[j] {
      assert j == 0 || j == 1 || j == 2 || j == 3 || j == 4;
    }
  }

  lemma RegistrationFieldsDistinct()
    ensures Distinct(RegistrationFields)
  {
  }

  /** The six checks of the shipping form, in the order they are run. */
  function ShippingChecks(a: ShippingAddress): seq<Option<FieldError>>
  {
    [ValidateName(a.name), ValidatePhone(a.phone), ValidateAddress(a.address),
     ValidateCity(a.city), ValidateState(a.state), ValidatePincode(a.pincode)]
  }

  function ValidateShippingAddress(a: ShippingAddress): ValidationResult
  {
    Outcome(Present(ShippingChecks(a)))
  }

  const ShippingFields: seq<string> := ["name", "phone", "address", "city", "state", "pincode"]

  /**
   * The shipping form is valid exactly when every field is; it reports at
   * most one error per field, in the order name, phone, address, city,
   * state, pincode, and reports a field exactly when that field's check
   * failed.
   */
  lemma ShippingErrors(a: ShippingAddress)
    ensures var r := ValidateShippingAddress(a);
      && (r.isValid <==> forall k :: 0 <= k < 6 ==> ShippingChecks(a)[k].None?)
      && FieldsInOrder(r.errors, ShippingFields)
      && (forall k :: 0 <= k < 6 ==> (HasFieldError(r.errors, ShippingFields[k]) <==> ShippingChecks(a)[k].Some?))
  {
    ShippingLabelled(a);
    ShippingFieldsDistinct();
    FormErrors(ShippingChecks(a), ShippingFields);
  }

  lemma ShippingLabelled(a: ShippingAddress)
    ensures Labelled(ShippingChecks(a), ShippingFields)
  {
    var checks := ShippingChecks(a);
    forall j | 0 <= j < |checks| && checks[j].Some? ensures checks[j].value.field == ShippingFields[j] {
      assert j == 0 || j == 1 || j == 2 || j == 3 || j == 4 || j == 5;
    }
  }

  lemma ShippingFieldsDistinct()
    ensures Distinct(ShippingFields)
  {
  }

  // ---------------------------------------------------------------------------
  // Review form

  /** `!rating || rating < 1 || rating > 5` on the star value, a JS number. */
  function RatingCheck(rating: real): (r: Option<FieldError>)
    ensures r.None? <==> 1.0 <= rating <= 5.0
  {
    if rating == 0.0 || rating < 1.0 || rating > 5.0 then Some(FieldError("rating", "Please select a rating between 1 and 5 stars")) else None
  }

  function CommentCheck(comment: string): (r: Option<FieldError>)
    ensures r.None? <==> 10 <= Utf16Length(Trim(comment)) <= 500
  {
    if comment == "" then Some(FieldError("comment", "Review comment is required"))
    else if Utf16Length(Trim(comment)) < 10 then Some(FieldError("comment", "Review comment must be at least 10 characters long"))
    else if Utf16Length(Trim(comment)) > 500 then Some(FieldError("comment", "Review comment cannot exceed 500 characters"))
    else None
  }

  function ValidateProductReview(rating: real, comment: string): ValidationResult
  {
    Outcome(Present([RatingCheck(rating), CommentCheck(comment)]))
  }

  /** The review form is valid iff the rating lies within 1..5 and the trimmed comment has 10..500 UTF-16 code units. */
  lemma ReviewFormRules(rating: real, comment: string)
    ensures ValidateProductReview(rating, comment).isValid <==> 1.0 <= rating <= 5.0 && 10 <= Utf16Length(Trim(comment)) <= 500
  {
    var checks := [RatingCheck(rating), CommentCheck(comment)];
    PresentEmpty(checks);
    assert (forall k :: 0 <= k < |checks| ==> checks[k].None?) <==> checks[0].None? && checks[1].None?;
  }

  // ---------------------------------------------------------------------------
  // Looking errors up

  /** `errors.find(err => err.field === field)?.message ?? null`. */
  function GetFieldError(errors: seq<FieldError>, field: string): (r: Option<string>)
    ensures r.Some? ==> exists k :: 0 <= k < |errors| && errors[k].field == field && errors[k].message == r.value
                          && forall j :: 0 <= j < k ==> errors[j].field != field
  {
    if errors == [] then None
    else if errors[0].field == field then Some(errors[0].message)
    else
      var r := GetFieldError(errors[1..], field);
      if r.Some? then
        var k :| 0 <= k < |errors[1..]| && errors[1..][k].field == field && errors[1..][k].message == r.value
                 && forall j :: 0 <= j < k ==> errors[1..][j].field != field;
        assert errors[k + 1] == errors[1..][k];
        r
      else r
  }

  /** `errors.some(err => err.field === field)`. */
  predicate HasFieldError(errors: seq<FieldError>, field: string)
  {
    exists k :: 0 <= k < |errors| && errors[k].field == field
  }

  /** A field has an error exactly when looking its message up finds one. */
  lemma {:induction false} HasFieldErrorIffMessage(errors: seq<FieldError>, field: string)
    ensures HasFieldError(errors, field) <==> GetFieldError(errors, field).Some?
  {
    if errors != [] && errors[0].field != field {
      HasFieldErrorIffMessage(errors[1..], field);
      if HasFieldError(errors, field) {
        var k :| 0 <= k < |errors| && errors[k].field == field;
        assert errors[1..][k - 1].field == field;
      }
    }
  }
}
