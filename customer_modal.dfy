/** The customer form: its seven fields, the per-field error messages the
    validator fills in, the submit gate, and the clearing of a field's error
    when the user edits that field. */
module CustomerModal {
  import opened Common
  import opened CustomerService

  datatype FormData = FormData(
    name: string,
    email: string,
    whatsapp: string,
    branch: string,
    assignedStaff: string,
    package: string,
    status: string)

  /** The keys of the form object, which are also the keys of its errors object. */
  datatype Field = Name | Email | Whatsapp | Branch | AssignedStaff | Package | Status

  /** An empty form, or the edited customer's values with `''` for a missing
      field and `'active'` for a missing status. */
  function InitialForm(customer: Option<Customer>): (f: FormData)
    ensures f.status != ""
    ensures customer.None? ==> f == FormData("", "", "", "", "", "", "active")
    ensures customer.Some? ==> var c := customer.value;
      && f.name == c.name && f.email == c.email && f.whatsapp == c.whatsapp && f.branch == c.branch
      && (c.assignedStaff.Some? ==> f.assignedStaff == c.assignedStaff.value)
      && (c.assignedStaff.None? ==> f.assignedStaff == "")
      && (c.package.Some? ==> f.package == c.package.value)
      && (c.package.None? ==> f.package == "")
      && (c.status != "" ==> f.status == c.status)
      && (c.status == "" ==> f.status == "active")
  {
    match customer
    case None => FormData("", "", "", "", "", "", "active")
    case Some(c) =>
      FormData(c.name, c.email, c.whatsapp, c.branch,
               if c.assignedStaff.Some? then c.assignedStaff.value else "",
               if c.package.Some? then c.package.value else "",
               if c.status != "" then c.status else "active")
  }

  /** `{ ...prev, [field]: value }`. */
  function WithField(f: FormData, field: Field, value: string): FormData {
    match field
    case Name => f.(name := value)
    case Email => f.(email := value)
    case Whatsapp => f.(whatsapp := value)
    case Branch => f.(branch := value)
    case AssignedStaff => f.(assignedStaff := value)
    case Package => f.(package := value)
    case Status => f.(status := value)
  }

  /** `/\S+@\S+\.\S+/.test(s)`: somewhere in `s`, a non-space character, an
      `@`, one or more non-space characters, a `.`, and a non-space character. */
  predicate EmailShaped(s: string) {
    exists at, dot | 0 <= at < |s| && 0 <= dot < |s| :: EmailAt(s, at, dot)
  }

  /** The `@` of such a match sits at `at` and its `.` at `dot`. */
  predicate EmailAt(s: string, at: int, dot: int) {
    && 0 < at && at + 1 < dot && dot + 1 < |s|
    && s[at] == '@' && s[dot] == '.'
    && !IsWhitespace(s[at - 1]) && !IsWhitespace(s[dot + 1])
    && NoWhitespace(s[at + 1..dot])
  }

  predicate NoWhitespace(t: string) {
    forall k :: 0 <= k < |t| ==> !IsWhitespace(t[k])
  }

  /** The message the validator records for one field, if any. A required
      text field fails when `trim` leaves nothing of it, which is `IsBlank`
      (see `Common.TrimEmptyIffBlank`). */
  function FieldError(f: FormData, field: Field): Option<string> {
    match field
    case Name => if IsBlank(f.name) then Some("Name is required") else None
    case Email =>
      if IsBlank(f.email) then Some("Email is required")
      else if !EmailShaped(f.email) then Some("Invalid email format")
      else None
    case Whatsapp => if IsBlank(f.whatsapp) then Some("WhatsApp number is required") else None
    case Branch => if f.branch == "" then Some("Branch is required") else None
    case Package => if f.package == "" then Some("Package is required") else None
    case AssignedStaff => None
    case Status => None
  }

  /** Adds the entry `k: e` when there is a message `e`. */
  function Put(m: map<Field, string>, k: Field, e: Option<string>): map<Field, string> {
    if e.Some? then m[k := e.value] else m
  }

  /** The errors object `validateForm` builds, field by field in the
      source's order. */
  function ExpectedErrors(f: FormData): map<Field, string> {
    var m := Put(map[], Name, FieldError(f, Name));
    var m := Put(m, Email, FieldError(f, Email));
    var m := Put(m, Whatsapp, FieldError(f, Whatsapp));
    var m := Put(m, Branch, FieldError(f, Branch));
    Put(m, Package, FieldError(f, Package))
  }

  /** The errors object has an entry for exactly the failing fields, holding
      that field's message. */
  lemma ErrorsAreFieldErrors(f: FormData, k: Field)
    ensures k in ExpectedErrors(f) <==> FieldError(f, k).Some?
    ensures k in ExpectedErrors(f) ==> ExpectedErrors(f)[k] == FieldError(f, k).value
  {
    match k
    case Name =>
    case Email =>
    case Whatsapp =>
    case Branch =>
    case Package =>
    case AssignedStaff =>
    case Status =>
  }

  /** A name is refused exactly when `trim` leaves nothing of it, that is
      when it is all whitespace. */
  lemma NameRequiredIffBlank(f: FormData)
    ensures Name in ExpectedErrors(f) <==> Trim(f.name) == ""
    ensures Name in ExpectedErrors(f) ==> ExpectedErrors(f)[Name] == "Name is required"
  {
    TrimEmptyIffBlank(f.name);
    ErrorsAreFieldErrors(f, Name);
  }

  /** The same for the whatsapp number. */
  lemma WhatsappRequiredIffBlank(f: FormData)
    ensures Whatsapp in ExpectedErrors(f) <==> Trim(f.whatsapp) == ""
    ensures Whatsapp in ExpectedErrors(f) ==> ExpectedErrors(f)[Whatsapp] == "WhatsApp number is required"
  {
    TrimEmptyIffBlank(f.whatsapp);
    ErrorsAreFieldErrors(f, Whatsapp);
  }

  /** A blank email is reported as missing, a non-blank one without the
      `a@b.c` shape as malformed, and never both. */
  lemma EmailErrors(f: FormData)
    ensures Trim(f.email) == "" ==> Email in ExpectedErrors(f) && ExpectedErrors(f)[Email] == "Email is required"
    ensures !IsBlank(f.email) && !EmailShaped(f.email) ==>
      Email in ExpectedErrors(f) && ExpectedErrors(f)[Email] == "Invalid email format"
    ensures !IsBlank(f.email) && EmailShaped(f.email) ==> Email !in ExpectedErrors(f)
  {
    TrimEmptyIffBlank(f.email);
    ErrorsAreFieldErrors(f, Email);
  }

  /** Branch and package are required as they are, without trimming; the staff
      member and the status are never reported. */
  lemma OtherFieldErrors(f: FormData)
    ensures Branch in ExpectedErrors(f) <==> f.branch == ""
    ensures Package in ExpectedErrors(f) <==> f.package == ""
    ensures AssignedStaff !in ExpectedErrors(f) && Status !in ExpectedErrors(f)
    ensures ExpectedErrors(f).Keys <= {Name, Email, Whatsapp, Branch, Package}
  {
    forall k: Field ensures k in ExpectedErrors(f) <==> FieldError(f, k).Some? {
      ErrorsAreFieldErrors(f, k);
    }
  }

  /** The shape test on sample addresses. */
  lemma SampleAddresses()
    ensures EmailShaped("a@b.c")
    ensures !EmailShaped("a@b")
  {
    var s := "a@b.c";
    assert s[1] == '@' && s[3] == '.' && s[0] == 'a' && s[4] == 'c';
    assert NoWhitespace(s[2..3]) by { assert s[2..3] == "b"; }
    assert EmailAt(s, 1, 3);
  }

  /** A fully filled-in form with a well-shaped email passes. */
  lemma SampleFormPasses()
    ensures ExpectedErrors(FormData("Ann", "a@b.c", "+1", "Main Branch", "", "Basic Package", "active")) == map[]
  {
    var f := FormData("Ann", "a@b.c", "+1", "Main Branch", "", "Basic Package", "active");
    SampleAddresses();
    assert !IsBlank(f.name) by { assert !IsWhitespace(f.name[0]); }
    assert !IsBlank(f.email) by { assert !IsWhitespace(f.email[0]); }
    assert !IsBlank(f.whatsapp) by { assert !IsWhitespace(f.whatsapp[0]); }
  }

  class CustomerForm {
    var formData: FormData
    var errors: map<Field, string>

    constructor (customer: Option<Customer>)
      ensures formData == InitialForm(customer) && errors == map[]
    {
      formData := InitialForm(customer);
      errors := map[];
    }

    /** `validateForm`: records a message for every failing field, in the
        source's order, and reports whether none failed. */
    method ValidateForm() returns (ok: bool)
      modifies this`errors
      ensures errors == ExpectedErrors(formData)
      ensures ok <==> errors == map[]
    {
      var f := formData;
      var newErrors: map<Field, string> := map[];
      if IsBlank(f.name) {
        newErrors := newErrors[Name := "Name is required"];
      }
      assert newErrors == Put(map[], Name, FieldError(f, Name));
      var before := newErrors;
      if IsBlank(f.email) {
        newErrors := newErrors[Email := "Email is required"];
      } else if !EmailShaped(f.email) {
        newErrors := newErrors[Email := "Invalid email format"];
      }
      assert newErrors == Put(before, Email, FieldError(f, Email));
      before := newErrors;
      if IsBlank(f.whatsapp) {
        newErrors := newErrors[Whatsapp := "WhatsApp number is required"];
      }
      assert newErrors == Put(before, Whatsapp, FieldError(f, Whatsapp));
      before := newErrors;
      if f.branch == "" {
        newErrors := newErrors[Branch := "Branch is required"];
      }
      assert newErrors == Put(before, Branch, FieldError(f, Branch));
      before := newErrors;
      if f.package == "" {
        newErrors := newErrors[Package := "Package is required"];
      }
      assert newErrors == Put(before, Package, FieldError(f, Package));
      errors := newErrors;
      ok := newErrors == map[];
    }

    /** `handleSubmit`: the form data goes to `onSave` only when validation passes. */
    method HandleSubmit() returns (saved: Option<FormData>)
      modifies this`errors
      ensures errors == ExpectedErrors(formData)
      ensures saved.Some? <==> ExpectedErrors(formData) == map[]
      ensures saved.Some? ==> saved.value == formData
    {
      var ok := ValidateForm();
      saved := if ok then Some(formData) else None;
    }

    /** `handleChange`: stores the new value and, when that field shows an
        error, blanks it; every other field's value and error stay. */
    method HandleChange(field: Field, value: string)
      modifies this
      ensures formData == WithField(old(formData), field, value)
      ensures field in errors <==> field in old(errors)
      ensures field in errors ==> errors[field] == ""
      ensures forall k :: k != field ==> (k in errors <==> k in old(errors)) && (k in errors ==> errors[k] == old(errors)[k])
    {
      formData := WithField(formData, field, value);
      if field in errors && errors[field] != "" {
        errors := errors[field := ""];
      }
    }
  }
}
