/** The contact form's validation rules, in pydantic v1's order: a field's
    declared length bounds are checked on the raw value, and only a value
    that passes them reaches the field's validator. `name` and `message` are
    stripped and must not be blank; a non-blank `phone` needs seven digits
    and is kept exactly as typed. The e-mail check belongs to the library
    and is an input here. */
module Contact {
  import opened Wrappers
  import opened PyText

  const NameMinLength: nat := 2
  const NameMaxLength: nat := 100
  const CompanyMaxLength: nat := 100
  const PhoneMaxLength: nat := 20
  const PhoneMinDigits: nat := 7
  const MessageMinLength: nat := 10
  const MessageMaxLength: nat := 2000

  datatype Field = Name | Email | Company | Phone | Service | Message

  /** Why a field is rejected: a declared length bound, a blank text, a
      phone number with too few digits, or an address the e-mail type
      refuses. */
  datatype FieldError =
    | TooShort(field: Field, minLength: nat)
    | TooLong(field: Field, maxLength: nat)
    | Blank(field: Field)
    | PhoneTooShort
    | InvalidEmail

  /** The form as submitted. */
  datatype Submission = Submission(
    name: string,
    email: string,
    company: Option<string>,
    phone: Option<string>,
    service: string,
    message: string)

  /** The form as stored after validation. */
  datatype ContactForm = ContactForm(
    name: string,
    email: string,
    company: Option<string>,
    phone: Option<string>,
    service: string,
    message: string)

  /** A required text field with length bounds whose validator strips it
      and rejects it when nothing is left: `name` and `message`. */
  function ValidateStrippedText(field: Field, v: string, minLength: nat, maxLength: nat):
    (r: Result<string, FieldError>)
    ensures r.Ok? <==> minLength <= |v| <= maxLength && !IsBlank(v)
    ensures |v| < minLength ==> r == Err(TooShort(field, minLength))
    ensures minLength <= |v| && maxLength < |v| ==> r == Err(TooLong(field, maxLength))
    ensures minLength <= |v| <= maxLength && IsBlank(v) ==> r == Err(Blank(field))
    ensures r.Ok? ==> r.value == Strip(v) && r.value != "" && |r.value| <= maxLength
    ensures r.Ok? ==> Strip(r.value) == r.value
  {
    StripEmptyIffBlank(v);
    StripIdempotent(v);
    if |v| < minLength then Err(TooShort(field, minLength))
    else if |v| > maxLength then Err(TooLong(field, maxLength))
    else if Strip(v) == "" then Err(Blank(field))
    else Ok(Strip(v))
  }

  /** `name`: 2 to 100 characters as submitted, not blank, stored stripped. */
  function ValidateName(v: string): (r: Result<string, FieldError>)
    ensures r.Ok? <==> NameMinLength <= |v| <= NameMaxLength && !IsBlank(v)
    ensures r.Ok? ==> r.value == Strip(v) && r.value != "" && |r.value| <= NameMaxLength
  {
    ValidateStrippedText(Name, v, NameMinLength, NameMaxLength)
  }

  /** `message`: 10 to 2000 characters as submitted, not blank, stored
      stripped. */
  function ValidateMessage(v: string): (r: Result<string, FieldError>)
    ensures r.Ok? <==> MessageMinLength <= |v| <= MessageMaxLength && !IsBlank(v)
    ensures r.Ok? ==> r.value == Strip(v) && r.value != "" && |r.value| <= MessageMaxLength
  {
    ValidateStrippedText(Message, v, MessageMinLength, MessageMaxLength)
  }

  /** `company`: optional, at most 100 characters, stored as given. */
  function ValidateCompany(v: Option<string>): (r: Result<Option<string>, FieldError>)
    ensures r.Ok? <==> v.None? || |v.value| <= CompanyMaxLength
    ensures r.Ok? ==> r.value == v
  {
    match v
    case None => Ok(None)
    case Some(c) => if |c| > CompanyMaxLength then Err(TooLong(Company, CompanyMaxLength)) else Ok(v)
  }

  /** `phone`: optional and at most 20 characters; a value that is not
      blank must hold at least seven digits; an accepted value is stored
      exactly as given, neither stripped nor reduced to its digits. */
  function ValidatePhone(v: Option<string>): (r: Result<Option<string>, FieldError>)
    ensures r.Ok? ==> r.value == v
    ensures v.None? ==> r.Ok?
    ensures v.Some? && |v.value| <= PhoneMaxLength && IsBlank(v.value) ==> r.Ok?
    ensures v.Some? && |v.value| > PhoneMaxLength ==> r == Err(TooLong(Phone, PhoneMaxLength))
    ensures v.Some? && |v.value| <= PhoneMaxLength && !IsBlank(v.value) ==>
              (r.Ok? <==> |Digits(v.value)| >= PhoneMinDigits)
    ensures r.Ok? && v.Some? && !IsBlank(v.value) ==> PhoneMinDigits <= |v.value| <= PhoneMaxLength
  {
    match v
    case None => Ok(None)
    case Some(p) =>
      StripEmptyIffBlank(p);
      if |p| > PhoneMaxLength then Err(TooLong(Phone, PhoneMaxLength))
      else if p != "" && Strip(p) != "" && |Digits(p)| < PhoneMinDigits then Err(PhoneTooShort)
      else Ok(v)
  }

  /** The error a field contributes, if any. */
  function ErrorOf<T>(r: Result<T, FieldError>): seq<FieldError> {
    if r.Err? then [r.error] else []
  }

  /** The verdict of the e-mail type on the address. */
  function ValidateEmail(email: string, emailAccepted: bool): Result<string, FieldError> {
    if emailAccepted then Ok(email) else Err(InvalidEmail)
  }

  /** The rejections of a submission, in the order the fields are
      declared. */
  function FormErrors(s: Submission, emailAccepted: bool): seq<FieldError> {
    ErrorOf(ValidateName(s.name))
    + (ErrorOf(ValidateEmail(s.email, emailAccepted)) + ErrorOf(ValidateCompany(s.company))
       + ErrorOf(ValidatePhone(s.phone)))
    + ErrorOf(ValidateMessage(s.message))
  }

  /** `ContactForm(**submission)`: every field is checked, and the form is
      built only when none is rejected; otherwise all rejections are
      reported. `emailAccepted` is the verdict of the e-mail type. */
  function ValidateForm(s: Submission, emailAccepted: bool): (r: Result<ContactForm, seq<FieldError>>)
    ensures r.Ok? <==> ValidateName(s.name).Ok? && emailAccepted && ValidateCompany(s.company).Ok?
                       && ValidatePhone(s.phone).Ok? && ValidateMessage(s.message).Ok?
    ensures r.Ok? ==> r.value == ContactForm(Strip(s.name), s.email, s.company, s.phone, s.service, Strip(s.message))
    ensures r.Err? ==> 1 <= |r.error| <= 5
  {
    var errors := FormErrors(s, emailAccepted);
    if errors == [] then
      Ok(ContactForm(ValidateName(s.name).value, s.email, ValidateCompany(s.company).value,
                     ValidatePhone(s.phone).value, s.service, ValidateMessage(s.message).value))
    else
      Err(errors)
  }

  // ---------------------------------------------------------------------
  // Properties

  /** The first of a one-element front and the last of a one-element back. */
  lemma EndsOfErrorList(front: seq<FieldError>, middle: seq<FieldError>, back: seq<FieldError>)
    ensures |front| == 1 ==> (front + middle + back)[0] == front[0]
    ensures |back| == 1 ==> (front + middle + back)[|front + middle + back| - 1] == back[0]
  {
  }

  /** A rejected submission reports exactly its field rejections. */
  lemma RejectionsAreFormErrors(s: Submission, emailAccepted: bool)
    ensures FormErrors(s, emailAccepted) != [] ==> ValidateForm(s, emailAccepted) == Err(FormErrors(s, emailAccepted))
  {
  }

  /** The field rejections, split into the name's, the middle fields' and
      the message's. This unfolds `FormErrors` once; it is a hint for the
      solver that keeps `FormErrorsInFieldOrder` small, not a property of the
      model. */
  lemma FormErrorsParts(s: Submission, emailAccepted: bool)
    ensures FormErrors(s, emailAccepted)
            == ErrorOf(ValidateName(s.name))
               + (ErrorOf(ValidateEmail(s.email, emailAccepted)) + ErrorOf(ValidateCompany(s.company))
                  + ErrorOf(ValidatePhone(s.phone)))
               + ErrorOf(ValidateMessage(s.message))
  {
  }

  /** Rejections are reported in field order: a rejected name is the first
      error reported, a rejected message the last. */
  lemma FormErrorsInFieldOrder(s: Submission, emailAccepted: bool)
    ensures var r := ValidateForm(s, emailAccepted);
            ValidateName(s.name).Err? ==> r.Err? && r.error[0] == ValidateName(s.name).error
    ensures var r := ValidateForm(s, emailAccepted);
            ValidateMessage(s.message).Err? ==> r.Err? && r.error[|r.error| - 1] == ValidateMessage(s.message).error
  {
    FormErrorsParts(s, emailAccepted);
    EndsOfErrorList(ErrorOf(ValidateName(s.name)),
                    ErrorOf(ValidateEmail(s.email, emailAccepted)) + ErrorOf(ValidateCompany(s.company))
                    + ErrorOf(ValidatePhone(s.phone)),
                    ErrorOf(ValidateMessage(s.message)));
    RejectionsAreFormErrors(s, emailAccepted);
  }

  /** Re-validating a stored name accepts it exactly when it still has the
      minimum length: stripping can take an accepted name below it. */
  lemma RevalidateName(v: string)
    requires ValidateName(v).Ok?
    ensures var n := ValidateName(v).value;
            ValidateName(n).Ok? <==> |n| >= NameMinLength
    ensures var n := ValidateName(v).value;
            ValidateName(n).Ok? ==> ValidateName(n).value == n
  {
    var n := ValidateName(v).value;
    StripEmptyIffBlank(n);
  }

  /** Re-validating a stored message accepts it exactly when it still has
      the minimum length. */
  lemma RevalidateMessage(v: string)
    requires ValidateMessage(v).Ok?
    ensures var m := ValidateMessage(v).value;
            ValidateMessage(m).Ok? <==> |m| >= MessageMinLength
  {
    var m := ValidateMessage(v).value;
    StripEmptyIffBlank(m);
  }

  /** A submitted name of two characters with a leading space is accepted
      and stored as a single character. */
  lemma PaddedNameStoredBelowMinimum()
    ensures ValidateName(" J") == Ok("J")
    ensures |"J"| < NameMinLength
  {
    assert !IsSpace('J');
    assert TrimStart(" J") == TrimStart("J") == "J";
    assert TrimEnd("J") == "J";
  }

  /** Validating a phone is idempotent: what is stored passes again
      unchanged. */
  lemma PhoneValidationIdempotent(v: Option<string>)
    requires ValidatePhone(v).Ok?
    ensures ValidatePhone(ValidatePhone(v).value) == ValidatePhone(v)
  {
  }

  /** A phone number counts its digits wherever they are: spaces,
      signs and separators neither help nor hurt. */
  lemma PhoneDigitsIgnoreSeparators(a: string, b: string)
    ensures |Digits(a + " " + b)| == |Digits(a)| + |Digits(b)|
    ensures |Digits(a + "-" + b)| == |Digits(a)| + |Digits(b)|
  {
    DigitsAppend(a + " ", b);
    DigitsAppend(a, " ");
    DigitsAppend(a + "-", b);
    DigitsAppend(a, "-");
  }

  /** A blank phone (only whitespace) is accepted and kept as typed, even
      though it holds no digit. */
  lemma BlankPhoneAccepted()
    ensures ValidatePhone(Some("   ")) == Ok(Some("   "))
    ensures Digits("   ") == ""
  {
    assert IsBlank("   ");
  }

  /** The digit counts of the groups of the documented example number. */
  lemma ExamplePhoneGroupDigits()
    ensures |Digits("+353")| == 3 && |Digits("1")| == 1
    ensures |Digits("234")| == 3 && |Digits("5678")| == 4
  {
    assert Digits("+353") == "353";
    assert Digits("1") == "1";
    assert Digits("234") == "234";
    assert Digits("5678") == "5678";
  }

  /** The phone number of the form's documented example holds eleven
      digits. */
  lemma ExamplePhoneDigits()
    ensures |Digits("+353 1 234 5678")| == 11
  {
    assert "234" + " " + "5678" == "234 5678";
    assert "1" + " " + "234 5678" == "1 234 5678";
    assert "+353" + " " + "1 234 5678" == "+353 1 234 5678";
    PhoneDigitsIgnoreSeparators("234", "5678");
    PhoneDigitsIgnoreSeparators("1", "234 5678");
    PhoneDigitsIgnoreSeparators("+353", "1 234 5678");
    ExamplePhoneGroupDigits();
  }

  /** The documented example's phone number is accepted as typed. */
  lemma ExamplePhoneAccepted()
    ensures ValidatePhone(Some("+353 1 234 5678")) == Ok(Some("+353 1 234 5678"))
  {
    ExamplePhoneDigits();
    assert !IsBlank("+353 1 234 5678") by {
      assert !IsSpace("+353 1 234 5678"[0]);
    }
  }
}
