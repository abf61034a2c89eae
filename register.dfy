/**
 * The registration page: its form state, the step-1 validators, the three-step wizard counter
 * and the cleaned payload it submits.
 */
module Register {
  import opened Wrappers
  import opened Js
  import opened Seqs
  import EmailRegex

  /** The form's fields, each as the text the user typed. */
  datatype FormData = FormData(
    name: string,
    email: string,
    password: string,
    age: string,
    mobile: string,
    address: string,
    city: string,
    state: string,
    zipCode: string)

  const EMPTY_FORM := FormData("", "", "", "", "", "", "", "", "")

  /** The `name` attribute of an input, which `handleChange` uses as the key to write. */
  datatype Field = Name | Email | Password | Age | Mobile | Address | City | State | ZipCode

  /** `{ ...prev, [name]: value }`. */
  function WithField(f: FormData, field: Field, value: string): FormData {
    match field
    case Name => f.(name := value)
    case Email => f.(email := value)
    case Password => f.(password := value)
    case Age => f.(age := value)
    case Mobile => f.(mobile := value)
    case Address => f.(address := value)
    case City => f.(city := value)
    case State => f.(state := value)
    case ZipCode => f.(zipCode := value)
  }

  /** `/^\d+$/.test(s)`. */
  predicate OnlyDigits(s: string) {
    |s| > 0 && forall k :: 0 <= k < |s| ==> IsDigit(s[k])
  }

  /**
   * `validateMobile`: strip every non-digit, then accept 10 to 15 digits. The final
   * `/^\d+$/` test never rejects anything the length check lets through.
   */
  function ValidateMobile(mobile: string): (ok: bool)
    ensures ok <==> 10 <= |Filter(mobile, IsDigit)| <= 15
  {
    var clean := Filter(mobile, IsDigit);
    10 <= |clean| && |clean| <= 15 && OnlyDigits(clean)
  }

  /** Spaces, dashes, brackets and a leading `+` make no difference: only the digits are judged. */
  lemma MobileJudgedOnDigits(mobile: string)
    ensures ValidateMobile(mobile) == ValidateMobile(Filter(mobile, IsDigit))
  {
    var clean := Filter(mobile, IsDigit);
    FilterAll(clean, IsDigit);
  }

  /** `age = parseInt(formData.age)` passes `!(isNaN(age) || age <= 0 || age > 120)`. */
  predicate AgeOk(age: string): (ok: bool)
    ensures ok ==> exists k :: 0 <= k < |age| && IsDigit(age[k])
    ensures forall n: nat :: 1 <= n <= 120 && age == DecimalString(n) ==> ok
  {
    AgeNumeralsAccepted(age);
    ParseInt(age).Num? && 0 < ParseInt(age).n <= 120
  }

  /** Every numeral from 1 to 120 is an acceptable age. */
  lemma AgeNumeralsAccepted(age: string)
    ensures forall n: nat :: 1 <= n <= 120 && age == DecimalString(n) ==>
      ParseInt(age).Num? && 0 < ParseInt(age).n <= 120
  {
    forall n: nat | 1 <= n <= 120 && age == DecimalString(n)
      ensures ParseInt(age).Num? && 0 < ParseInt(age).n <= 120
    {
      ParseIntDecimal(n);
    }
  }

  /** The step-1 checks, in the order the page makes them. */
  datatype Step1Error = MissingFields | InvalidEmail | InvalidMobile | InvalidAge | ShortPassword

  /** The toast each failed check shows. */
  function ErrorMessage(e: Step1Error): string {
    match e
    case MissingFields => "Please fill in all required fields"
    case InvalidEmail => "Please enter a valid email address"
    case InvalidMobile => "Please enter a valid mobile number (10-15 digits)"
    case InvalidAge => "Please enter a valid age (1-120)"
    case ShortPassword => "Password must be at least 6 characters long"
  }

  /**
   * What each check demands of the form: the trimmed name, e-mail, password and mobile and the
   * untrimmed age are non-empty; the trimmed e-mail matches the pattern; the trimmed mobile has
   * 10 to 15 digits; the age parses to 1..120; the trimmed password has at least 6 characters.
   */
  ghost predicate Passes(f: FormData, e: Step1Error) {
    match e
    case MissingFields =>
      Trim(f.name) != "" && Trim(f.email) != "" && Trim(f.password) != "" && f.age != "" && Trim(f.mobile) != ""
    case InvalidEmail => EmailRegex.Matches(Trim(f.email))
    case InvalidMobile => 10 <= |Filter(Trim(f.mobile), IsDigit)| <= 15
    case InvalidAge => AgeOk(f.age)
    case ShortPassword => |Trim(f.password)| >= 6
  }

  /** Every check made before the one that reports `e` passes. */
  ghost predicate PassesAllBefore(f: FormData, e: Step1Error) {
    match e
    case MissingFields => true
    case InvalidEmail => Passes(f, MissingFields)
    case InvalidMobile => Passes(f, MissingFields) && Passes(f, InvalidEmail)
    case InvalidAge => Passes(f, MissingFields) && Passes(f, InvalidEmail) && Passes(f, InvalidMobile)
    case ShortPassword =>
      Passes(f, MissingFields) && Passes(f, InvalidEmail) && Passes(f, InvalidMobile) && Passes(f, InvalidAge)
  }

  /**
   * `validateStep1`: reports the first failing check in the fixed order required, e-mail, mobile,
   * age, password, and nothing when all pass.
   */
  function ValidateStep1(f: FormData): (r: Option<Step1Error>)
    ensures r.None? <==> forall e :: Passes(f, e)
    ensures r.Some? ==> !Passes(f, r.value) && PassesAllBefore(f, r.value)
  {
    var trimmedName := Trim(f.name);
    var trimmedEmail := Trim(f.email);
    var trimmedPassword := Trim(f.password);
    var trimmedMobile := Trim(f.mobile);
    var age := ParseInt(f.age);
    ChecksAsWritten(f);
    if trimmedName == "" || trimmedEmail == "" || trimmedPassword == "" || f.age == "" || trimmedMobile == "" then
      Some(MissingFields)
    else if !EmailRegex.Test(trimmedEmail) then Some(InvalidEmail)
    else if !ValidateMobile(trimmedMobile) then Some(InvalidMobile)
    else if age.NaN? || age.n <= 0 || age.n > 120 then Some(InvalidAge)
    else if |trimmedPassword| < 6 then Some(ShortPassword)
    else
      EveryCheckPasses(f);
      None
  }

  /** Each check as the page writes it decides the matching clause of `Passes`. */
  lemma ChecksAsWritten(f: FormData)
    ensures Passes(f, MissingFields) <==>
      !(Trim(f.name) == "" || Trim(f.email) == "" || Trim(f.password) == "" || f.age == "" || Trim(f.mobile) == "")
    ensures Passes(f, InvalidEmail) <==> EmailRegex.Test(Trim(f.email))
    ensures Passes(f, InvalidMobile) <==> ValidateMobile(Trim(f.mobile))
    ensures Passes(f, InvalidAge) <==> !(ParseInt(f.age).NaN? || ParseInt(f.age).n <= 0 || ParseInt(f.age).n > 120)
    ensures Passes(f, ShortPassword) <==> !(|Trim(f.password)| < 6)
  {
    var email, mobile, age := Trim(f.email), Trim(f.mobile), ParseInt(f.age);
    assert Passes(f, InvalidEmail) <==> EmailRegex.Test(email) by {
      assert Passes(f, InvalidEmail) == EmailRegex.Matches(email);
    }
    assert Passes(f, InvalidMobile) <==> ValidateMobile(mobile) by {
      assert Passes(f, InvalidMobile) == (10 <= |Filter(mobile, IsDigit)| <= 15);
    }
    assert Passes(f, InvalidAge) <==> !(age.NaN? || age.n <= 0 || age.n > 120) by {
      assert Passes(f, InvalidAge) == AgeOk(f.age);
    }
  }

  lemma EveryCheckPasses(f: FormData)
    requires Passes(f, MissingFields) && Passes(f, InvalidEmail) && Passes(f, InvalidMobile)
    requires Passes(f, InvalidAge) && Passes(f, ShortPassword)
    ensures forall e :: Passes(f, e)
  {
    forall e ensures Passes(f, e) {
      match e
      case MissingFields =>
      case InvalidEmail =>
      case InvalidMobile =>
      case InvalidAge =>
      case ShortPassword =>
    }
  }

  /** The body `handleSubmit` posts. */
  datatype Payload = Payload(
    name: string,
    email: string,
    password: string,
    age: JsNumber,
    mobile: string,
    address: Option<string>,
    city: Option<string>,
    state: Option<string>,
    zipCode: Option<JsNumber>,
    role: string)

  /** `value.trim() || undefined`: the trimmed text, or absent when nothing but whitespace was typed. */
  function TrimmedOrAbsent(value: string): (r: Option<string>)
    ensures r.None? <==> Trim(value) == ""
    ensures r.Some? ==> r.value == Trim(value) && r.value != ""
  {
    var t := Trim(value);
    if t == "" then None else Some(t)
  }

  /**
   * The cleaned payload: trimmed text fields, the e-mail also lower-cased, the age parsed, empty
   * optional fields absent, the zip code parsed when given, and the role fixed to "farmer".
   */
  function CleanPayload(f: FormData): (p: Payload)
    ensures p.email == ToLowerCase(Trim(f.email)) && p.role == "farmer"
    ensures p.address.None? <==> Trim(f.address) == ""
    ensures p.city.None? <==> Trim(f.city) == ""
    ensures p.state.None? <==> Trim(f.state) == ""
    ensures p.zipCode.None? <==> Trim(f.zipCode) == ""
  {
    var zip := Trim(f.zipCode);
    Payload(
      Trim(f.name),
      ToLowerCase(Trim(f.email)),
      Trim(f.password),
      ParseInt(f.age),
      Trim(f.mobile),
      TrimmedOrAbsent(f.address),
      TrimmedOrAbsent(f.city),
      TrimmedOrAbsent(f.state),
      if zip != "" then Some(ParseInt(zip)) else None,
      "farmer")
  }

  /** The submitted e-mail holds no upper-case letter and neither starts nor ends with whitespace. */
  lemma PayloadEmailNormalized(f: FormData)
    ensures var e := CleanPayload(f).email;
      (forall k :: 0 <= k < |e| ==> !IsUpper(e[k])) && (e == [] || (!IsSpace(e[0]) && !IsSpace(e[|e| - 1])))
  {
    LowerCaseKeepsEnds(Trim(f.email));
  }

  /** Lower-casing leaves no upper-case letter and keeps whitespace at the ends where it was. */
  lemma LowerCaseKeepsEnds(t: string)
    requires t == [] || (!IsSpace(t[0]) && !IsSpace(t[|t| - 1]))
    ensures var e := ToLowerCase(t);
      (forall k :: 0 <= k < |e| ==> !IsUpper(e[k])) && (e == [] || (!IsSpace(e[0]) && !IsSpace(e[|e| - 1])))
  {
    var e := ToLowerCase(t);
    assert t != [] ==> e[0] == LowerChar(t[0]) && e[|e| - 1] == LowerChar(t[|t| - 1]);
  }

  /**
   * A form that passes step 1 is submitted with an e-mail the server's pattern accepts, a valid
   * mobile, an age in 1..120, a password of at least 6 characters and a non-empty name.
   */
  lemma ValidFormGivesValidPayload(f: FormData)
    requires ValidateStep1(f).None?
    ensures var p := CleanPayload(f);
      EmailRegex.Test(p.email) && ValidateMobile(p.mobile) &&
      p.age.Num? && 1 <= p.age.n <= 120 && |p.password| >= 6 && p.name != ""
  {
    assert Passes(f, MissingFields) && Passes(f, InvalidEmail) && Passes(f, InvalidMobile);
    assert Passes(f, InvalidAge) && Passes(f, ShortPassword);
    EmailRegex.LowerCaseKeepsMatch(Trim(f.email));
  }

  /** The page's wizard state: the current step (1 to 3) and the form. */
  class RegistrationWizard {
    var currentStep: int
    var formData: FormData

    constructor ()
      ensures currentStep == 1 && formData == EMPTY_FORM
    {
      currentStep := 1;
      formData := EMPTY_FORM;
    }

    /** `handleChange`: writes one field and nothing else. */
    method HandleChange(field: Field, value: string)
      modifies this
      ensures formData == WithField(old(formData), field, value) && currentStep == old(currentStep)
    {
      formData := WithField(formData, field, value);
    }

    /**
     * `nextStep`: leaves step 1 only when the form passes step 1, and advances from any other step
     * unconditionally, and returns the toast a failed check shows. From a step showing the button
     * (1 or 2) the counter stays within 1..3.
     */
    method NextStep() returns (toast: Option<string>)
      modifies this
      ensures formData == old(formData)
      ensures toast == if old(currentStep) == 1 && ValidateStep1(formData).Some?
        then Some(ErrorMessage(ValidateStep1(formData).value)) else None
      ensures currentStep ==
        if old(currentStep) == 1 && ValidateStep1(formData).Some? then old(currentStep) else old(currentStep) + 1
      ensures old(currentStep) == 1 && currentStep == 2 ==> forall e :: Passes(formData, e)
      ensures old(currentStep) in {1, 2} ==> 1 <= currentStep <= 3
    {
      if currentStep == 1 {
        var err := ValidateStep1(formData);
        if err.Some? {
          return Some(ErrorMessage(err.value));
        }
      }
      currentStep := currentStep + 1;
      toast := None;
    }

    /** `prevStep`: goes back one step. From a step showing the button (2 or 3) it stays within 1..3. */
    method PrevStep()
      modifies this
      ensures formData == old(formData) && currentStep == old(currentStep) - 1
      ensures old(currentStep) in {2, 3} ==> 1 <= currentStep <= 3
    {
      currentStep := currentStep - 1;
    }
  }
}
