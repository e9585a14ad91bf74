/** The client form: its initial contents, the phone formatter applied as
    the user types, the validator with its three patterns, and the submit
    dispatch. */
module ClientForm {
  import opened Seqs
  import opened Text
  import opened Calendar
  import opened Types
  import opened DataContext

  // ---------------------------------------------------------------- the phone formatter

  function DigitTest(): char -> bool
  {
    (c: char) => IsDigit(c)
  }

  /** `value.replace(/\D/g, '')`, then at most the first ten digits. */
  function KeptDigits(s: string): (r: string)
    ensures |r| <= 10 && AllDigits(r)
  {
    Take(Filter(s, DigitTest()), 10)
  }

  /** `handlePhoneChange`: `ddd-ddd-rest` from seven digits on, `ddd-rest`
      from four, the bare digits below that. */
  function FormatPhone(s: string): (r: string)
    ensures |r| <= 12
    ensures forall i :: 0 <= i < |r| ==> IsDigit(r[i]) || r[i] == '-'
  {
    var v := KeptDigits(s);
    if |v| >= 7 then v[..3] + "-" + v[3..6] + "-" + v[6..]
    else if |v| >= 4 then v[..3] + "-" + v[3..]
    else v
  }

  lemma DigitsKept(v: string)
    requires AllDigits(v)
    ensures Filter(v, DigitTest()) == v
  {
    FilterAll(v, DigitTest());
  }

  /** A dash between two parts disappears when only digits are kept. */
  lemma DropDash(x: string, b: string)
    requires AllDigits(b)
    ensures Filter(x + "-" + b, DigitTest()) == Filter(x, DigitTest()) + b
  {
    var t := DigitTest();
    assert Filter("-", t) == [];
    FilterConcat(x + "-", b, t);
    FilterConcat(x, "-", t);
    DigitsKept(b);
    assert Filter(x, t) + [] == Filter(x, t);
  }

  /** Deleting the dashes from the formatted phone gives back the digits kept. */
  lemma FormatPhoneDigits(s: string)
    ensures Filter(FormatPhone(s), DigitTest()) == KeptDigits(s)
  {
    var v := KeptDigits(s);
    if |v| >= 7 {
      TwoDashesDropped(v);
    } else if |v| >= 4 {
      OneDashDropped(v);
    } else {
      DigitsKept(v);
    }
  }

  lemma TwoDashesDropped(v: string)
    requires AllDigits(v) && |v| >= 7
    ensures Filter(v[..3] + "-" + v[3..6] + "-" + v[6..], DigitTest()) == v
  {
    var a, b, c := v[..3], v[3..6], v[6..];
    assert AllDigits(a) && AllDigits(b) && AllDigits(c) by {
      assert forall i :: 0 <= i < 3 ==> a[i] == v[i] && b[i] == v[i + 3];
      assert forall i :: 0 <= i < |c| ==> c[i] == v[i + 6];
    }
    DashesDropped(a, b, c);
    assert a + b + c == v;
  }

  /** Deleting both dashes from three runs of digits joins the runs. */
  lemma DashesDropped(a: string, b: string, c: string)
    requires AllDigits(a) && AllDigits(b) && AllDigits(c)
    ensures Filter(a + "-" + b + "-" + c, DigitTest()) == a + b + c
  {
    DropDash(a, b);
    DigitsKept(a);
    DropDash(a + "-" + b, c);
  }

  lemma OneDashDropped(v: string)
    requires AllDigits(v) && |v| >= 4
    ensures Filter(v[..3] + "-" + v[3..], DigitTest()) == v
  {
    var a, b := v[..3], v[3..];
    DropDash(a, b);
    DigitsKept(a);
    assert a + b == v;
  }

  /** Formatting a formatted phone changes nothing. */
  lemma FormatPhoneIdempotent(s: string)
    ensures FormatPhone(FormatPhone(s)) == FormatPhone(s)
  {
    FormatPhoneDigits(s);
    assert KeptDigits(FormatPhone(s)) == KeptDigits(s);
  }

  // ---------------------------------------------------------------- the patterns

  /** `/^\d{3}-\d{3}-\d{4}$/` */
  predicate DashedPhone(p: string)
  {
    |p| == 12 && p[3] == '-' && p[7] == '-' &&
    AllDigits(p[..3]) && AllDigits(p[4..7]) && AllDigits(p[8..])
  }

  /** `/^\d{10}$/` */
  predicate TenDigits(p: string)
  {
    |p| == 10 && AllDigits(p)
  }

  /** `/\S+@\S+\.\S+/.test(s)`: somewhere in `s` a non-space, an `@`, one or
      more non-spaces, a `.` and a non-space follow each other. */
  predicate EmailPattern(s: string)
  {
    exists at, dot :: 1 <= at && at + 1 < dot && dot + 1 < |s| && EmailAt(s, at, dot)
  }

  /** The `@` at `at` and the `.` at `dot` anchor a match. */
  predicate EmailAt(s: string, at: int, dot: int)
    requires 1 <= at && at + 1 < dot && dot + 1 < |s|
  {
    s[at] == '@' && s[dot] == '.' && !IsSpace(s[at - 1]) && !IsSpace(s[dot + 1]) &&
    forall k :: at < k < dot ==> !IsSpace(s[k])
  }

  /** Formatting ten or more digits gives the dashed form. */
  lemma FormatPhoneDashed(s: string)
    requires |Filter(s, DigitTest())| >= 10
    ensures DashedPhone(FormatPhone(s))
  {
    var v := KeptDigits(s);
    assert |v| == 10;
    var a, b, c := v[..3], v[3..6], v[6..];
    assert AllDigits(a) && AllDigits(b) && AllDigits(c) by {
      assert forall i :: 0 <= i < 3 ==> a[i] == v[i] && b[i] == v[i + 3];
      assert forall i :: 0 <= i < 4 ==> c[i] == v[i + 6];
    }
    assert FormatPhone(s) == a + "-" + b + "-" + c;
    DashedParts(a, b, c);
  }

  /** Three digit groups of three, three and four joined by dashes match the pattern. */
  lemma DashedParts(a: string, b: string, c: string)
    requires |a| == 3 && |b| == 3 && |c| == 4
    requires AllDigits(a) && AllDigits(b) && AllDigits(c)
    ensures DashedPhone(a + "-" + b + "-" + c)
  {
    var p := a + "-" + b + "-" + c;
    assert p[..3] == a && p[4..7] == b && p[8..] == c;
  }

  // ---------------------------------------------------------------- validation

  const NameRequired := "El nombre es requerido"
  const PhoneRequired := "El tel\U{00E9}fono es requerido"
  const PhoneInvalid := "Formato inv\U{00E1}lido. Use: 555-123-4567 o 5551234567"
  const EmailRequired := "El email es requerido"
  const EmailInvalid := "Email inv\U{00E1}lido"

  function NameError(name: string): (r: Option<string>)
    ensures r.None? <==> !IsBlank(name)
  {
    BlankError(name, NameRequired)
  }

  /** The phone's error, if any: required when blank, otherwise it must be
      one of the two accepted forms. */
  function PhoneError(phone: string): (r: Option<string>)
    ensures r.None? <==> !IsBlank(phone) && (DashedPhone(phone) || TenDigits(phone))
  {
    if IsBlank(phone) then Some(PhoneRequired)
    else if !DashedPhone(phone) && !TenDigits(phone) then Some(PhoneInvalid)
    else None
  }

  function EmailError(email: string): (r: Option<string>)
    ensures r.None? <==> !IsBlank(email) && EmailPattern(email)
  {
    if IsBlank(email) then Some(EmailRequired)
    else if !EmailPattern(email) then Some(EmailInvalid)
    else None
  }

  /** The keys of the error record: the three fields `validate` checks. */
  datatype Field = NameField | PhoneField | EmailField

  /** The errors `validate` records, one per field that has one. */
  function ClientFormErrors(form: ClientInput): (r: map<Field, string>)
    ensures NameField in r <==> NameError(form.name).Some?
    ensures PhoneField in r <==> PhoneError(form.phone).Some?
    ensures EmailField in r <==> EmailError(form.email).Some?
    ensures r == map[] <==> NameError(form.name).None? && PhoneError(form.phone).None? && EmailError(form.email).None?
  {
    var n, p, m := NameError(form.name), PhoneError(form.phone), EmailError(form.email);
    Entries3(NameField, n, PhoneField, p, EmailField, m)
  }

  /** A phone the formatter produced from ten or more digits passes. */
  lemma FormattedPhoneAccepted(s: string)
    requires |Filter(s, DigitTest())| >= 10
    ensures PhoneError(FormatPhone(s)).None?
  {
    FormatPhoneDashed(s);
    NonSpaceNotBlank(FormatPhone(s), 0);
  }

  /** An example address passes and a string without a dot after the `@` does not. */
  lemma EmailExamples()
    ensures EmailPattern("ana@mail.com")
    ensures !EmailPattern("ana@mail")
  {
    assert EmailAt("ana@mail.com", 3, 8);
    var s := "ana@mail";
    forall at, dot | 1 <= at && at + 1 < dot && dot + 1 < |s|
      ensures !EmailAt(s, at, dot)
    {
      assert s[dot] != '.';
    }
  }

  // ---------------------------------------------------------------- initial contents and submit

  /** The form's starting contents: the client's fields when editing (an
      empty last visit reads as `null`), empty fields for a new client. */
  function InitialClientForm(client: Option<Client>): (r: ClientInput)
    ensures client.None? ==> r == ClientInput("", "", "", [], "", None)
    ensures client.Some? ==>
      r.name == client.value.name && r.phone == client.value.phone && r.email == client.value.email &&
      r.preferredServices == client.value.preferredServices && r.notes == client.value.notes
    ensures client.Some? && client.value.lastVisit != Some("") ==> r.lastVisit == client.value.lastVisit
    ensures client.Some? && client.value.lastVisit == Some("") ==> r.lastVisit == None
  {
    match client
    case None => ClientInput("", "", "", [], "", None)
    case Some(c) =>
      ClientInput(c.name, c.phone, c.email, c.preferredServices, c.notes,
                  if c.lastVisit == Some("") then None else c.lastVisit)
  }

  /** The update an edit sends: every field of the form, never `id` or `createdAt`. */
  function FullClientPatch(f: ClientInput): ClientPatch
  {
    ClientPatch(Some(f.name), Some(f.phone), Some(f.email), Some(f.preferredServices),
                Some(f.notes), Some(f.lastVisit))
  }

  /** Saving an edit keeps the client's id and creation date and takes every
      other field from the form. */
  lemma FullClientPatchReplaces(c: Client, f: ClientInput)
    ensures PatchClient(c, FullClientPatch(f)) == NewClientRecord(f, c.id, c.createdAt).(lastVisit := f.lastVisit)
  {
  }

  class ClientFormState {
    /** The client being edited, if any. */
    const client: Option<Client>
    var formData: ClientInput
    var errors: map<Field, string>

    constructor (client: Option<Client>)
      ensures this.client == client
      ensures formData == InitialClientForm(client) && errors == map[]
    {
      this.client := client;
      formData := InitialClientForm(client);
      errors := map[];
    }

    /** `handlePhoneChange`: stores the typed value formatted. */
    method PhoneChange(typed: string)
      modifies this
      ensures formData == old(formData).(phone := FormatPhone(typed))
      ensures errors == old(errors)
    {
      formData := formData.(phone := FormatPhone(typed));
    }

    /** `validate()` */
    method Validate() returns (valid: bool)
      modifies this
      ensures errors == ClientFormErrors(formData)
      ensures valid <==> errors == map[]
      ensures formData == old(formData)
    {
      var newErrors: map<Field, string> := map[];
      newErrors := WithEntry(newErrors, NameField, NameError(formData.name));
      newErrors := WithEntry(newErrors, PhoneField, PhoneError(formData.phone));
      newErrors := WithEntry(newErrors, EmailField, EmailError(formData.email));
      errors := newErrors;
      valid := |errors.Keys| == 0;
      NoKeysEmpty(errors);
    }

    /** `handleSubmit`: nothing reaches the store unless the form validates;
        then an edit updates the client with the whole form and a new
        client is added. */
    method Submit(store: DataStore, today: Date) returns (saved: bool)
      requires store.Valid() && ValidDate(today)
      modifies this, store
      ensures store.Valid()
      ensures saved <==> ClientFormErrors(old(formData)) == map[]
      ensures errors == ClientFormErrors(old(formData)) && formData == old(formData)
      ensures !saved ==> store.clients == old(store.clients)
      ensures saved && client.Some? ==>
        store.clients == UpdateClients(old(store.clients), client.value.id, FullClientPatch(formData))
      ensures saved && client.None? ==>
        store.clients == old(store.clients) + [NewClientRecord(formData, FreshId(old(store.issued)), FormatDate(today))]
      ensures store.services == old(store.services) && store.appointments == old(store.appointments)
      ensures store.employees == old(store.employees) && store.transactions == old(store.transactions)
    {
      saved := Validate();
      if !saved {
        return;
      }
      if client.Some? {
        store.UpdateClient(client.value.id, FullClientPatch(formData));
      } else {
        store.AddClient(formData, today);
      }
    }
  }
}
