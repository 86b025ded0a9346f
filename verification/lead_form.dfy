/**
 The contact form's record, its per-field error record, and the validator
 that the submit handler runs before anything is sent.
 */
module LeadForm {
  import opened JsText
  import opened FieldPatterns

  /** The five inputs of the form; each input's `name` attribute is one of these. */
  datatype Field = Name | Email | Phone | Company | Message

  /** The values of the five inputs. */
  datatype FormData = FormData(name: string, email: string, phone: string, company: string, message: string)
  {
    /** The value of one input. */
    function Get(f: Field): string {
      match f
      case Name => name
      case Email => email
      case Phone => phone
      case Company => company
      case Message => message
    }

    /** The object spread `{ ...prev, [f]: v }`: one input overwritten. */
    function With(f: Field, v: string): (d: FormData)
      ensures d.Get(f) == v
      ensures forall g :: g != f ==> d.Get(g) == Get(g)
    {
      match f
      case Name => this.(name := v)
      case Email => this.(email := v)
      case Phone => this.(phone := v)
      case Company => this.(company := v)
      case Message => this.(message := v)
    }
  }

  /** The form as it starts out and as a delivered submission leaves it. */
  const EmptyForm := FormData("", "", "", "", "")

  /** At most one message per field. A key the handlers set to `undefined` is
      an absent key here. */
  type FormErrors = map<Field, string>

  const NameRequired := "Nome é obrigatório"
  const EmailRequired := "Email é obrigatório"
  const EmailInvalid := "Email inválido"
  const PhoneRequired := "Telefone é obrigatório"
  const PhoneInvalid := "Telefone inválido"
  const CompanyRequired := "Empresa é obrigatória"

  /** The messages the validator can record for field `f`. */
  function MessagesFor(f: Field): set<string> {
    match f
    case Name => {NameRequired}
    case Email => {EmailRequired, EmailInvalid}
    case Phone => {PhoneRequired, PhoneInvalid}
    case Company => {CompanyRequired}
    case Message => {}
  }

  /** What one validation pass produces: the errors it records and the
      boolean it returns. */
  datatype Verdict = Verdict(errors: FormErrors, valid: bool)

  /** The rules the form promises, stated apart from how they are checked:
      the four contact fields are not blank, the email has the address shape
      and the phone uses only digits, white space, parentheses, `-` and `+`. */
  ghost predicate Acceptable(d: FormData) {
    && !AllWhitespace(d.name)
    && !AllWhitespace(d.email) && EmailShape(d.email)
    && !AllWhitespace(d.phone) && PhoneShape(d.phone)
    && !AllWhitespace(d.company)
  }

  /** `validateForm`: checks name, email, phone and company in that order, a
      blank value getting the required message before any format is tested,
      and answers whether no error was recorded. */
  function Validate(d: FormData): (v: Verdict)
    ensures v.valid <==> v.errors == map[]
    ensures v.valid <==> Acceptable(d)
    ensures Message !in v.errors
    ensures Name in v.errors <==> AllWhitespace(d.name)
    ensures Company in v.errors <==> AllWhitespace(d.company)
    ensures Email in v.errors <==> AllWhitespace(d.email) || !EmailShape(d.email)
    ensures Phone in v.errors <==> AllWhitespace(d.phone) || !PhoneShape(d.phone)
    ensures Name in v.errors ==> v.errors[Name] == NameRequired
    ensures Company in v.errors ==> v.errors[Company] == CompanyRequired
    ensures Email in v.errors ==>
      v.errors[Email] == (if AllWhitespace(d.email) then EmailRequired else EmailInvalid)
    ensures Phone in v.errors ==>
      v.errors[Phone] == (if AllWhitespace(d.phone) then PhoneRequired else PhoneInvalid)
  {
    var e0: FormErrors := map[];
    var e1 := if IsBlank(d.name) then e0[Name := NameRequired] else e0;
    var e2 :=
      if IsBlank(d.email) then e1[Email := EmailRequired]
      else if !IsEmail(d.email) then e1[Email := EmailInvalid]
      else e1;
    var e3 :=
      if IsBlank(d.phone) then e2[Phone := PhoneRequired]
      else if !IsPhone(d.phone) then e2[Phone := PhoneInvalid]
      else e2;
    var e4 := if IsBlank(d.company) then e3[Company := CompanyRequired] else e3;
    assert e4 == map[] <==> |e4| == 0;
    Verdict(e4, |e4| == 0)
  }

  /** Every message the validator records belongs to its field. */
  lemma ValidateMessagesBelong(d: FormData)
    ensures forall f :: f in Validate(d).errors ==> Validate(d).errors[f] in MessagesFor(f)
  {
  }

  /** The message field never takes part in validation: changing it changes
      nothing in the verdict. */
  lemma MessageIgnored(d: FormData, m: string)
    ensures Validate(d.With(Message, m)) == Validate(d)
  {
    var d' := d.With(Message, m);
    assert d'.name == d.name && d'.email == d.email && d'.phone == d.phone && d'.company == d.company;
  }

  /** When the email is the only rule broken, and it is filled in, the email
      input is the only one with an error, and that error is the format message. */
  lemma OnlyEmailRejected(d: FormData)
    requires !AllWhitespace(d.name) && !AllWhitespace(d.company)
    requires !AllWhitespace(d.phone) && PhoneShape(d.phone)
    requires !AllWhitespace(d.email) && !EmailShape(d.email)
    ensures Validate(d).errors == map[Email := EmailInvalid]
  {
    var e := Validate(d).errors;
    assert e.Keys == {Email} by {
      assert Email in e;
      forall f | f in e
        ensures f == Email
      {
      }
    }
  }

  /** Submitting the untouched form records the four required messages and nothing else. */
  lemma EmptyFormErrors()
    ensures Validate(EmptyForm).errors ==
      map[Name := NameRequired, Email := EmailRequired, Phone := PhoneRequired, Company := CompanyRequired]
  {
  }

  /** `"not-an-email"` has no `@` and fails the email expression. */
  lemma RejectsNotAnEmail()
    ensures !EmailShape("not-an-email")
  {
    NoAtIsNoEmail("not-an-email");
  }

  /** `"user@example.com"` passes the email expression. */
  lemma AcceptsUserAtExample()
    ensures EmailShape("user@example.com")
  {
    ShapeSplitsAtFirstAt("user@example.com", "user", "example", "com");
    FirstAtSplitIffShape("user@example.com");
  }

  /** `"abc"` fails the phone expression. */
  lemma RejectsAbcPhone()
    ensures !PhoneShape("abc")
  {
    assert !IsPhoneChar("abc"[0]);
  }

  /** A Brazilian number written with area code, space and hyphen passes the
      phone expression. */
  lemma AcceptsFormattedPhone()
    ensures PhoneShape("(11) 99999-9999")
  {
  }
}
