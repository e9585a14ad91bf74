/** The service form: its initial contents, the number inputs read as the
    user types, the category picker with its "new category" entry, the
    validator and the submit dispatch. */
module ServiceForm {
  import opened Seqs
  import opened Text
  import opened Types
  import opened DataContext

  /** What the form holds: a service without its id, whose two number
      fields carry what the inputs last parsed, possibly `NaN`. */
  datatype ServiceDraft = ServiceDraft(
    name: string,
    description: string,
    duration: Num,
    price: Num,
    category: string)

  /** The inputs wired to `handleChange`. */
  datatype Input = NameInput | DescriptionInput | DurationInput | PriceInput

  // ---------------------------------------------------------------- initial contents

  /** `categories.length > 0 ? categories[0] : ''` */
  function DefaultCategory(categories: seq<string>): (r: string)
    ensures categories == [] ==> r == ""
    ensures categories != [] ==> r == categories[0]
  {
    if |categories| > 0 then categories[0] else ""
  }

  /** `service?.field || default` for each field: an empty string or a zero
      number falls back to the default. */
  function InitialServiceForm(service: Option<Service>, categories: seq<string>): (r: ServiceDraft)
    ensures service.None? ==> r == ServiceDraft("", "", Int(30), Int(0), DefaultCategory(categories))
    ensures service.Some? ==>
      r.name == service.value.name && r.description == service.value.description &&
      r.price == Int(service.value.price)
    ensures service.Some? && service.value.duration != 0 ==> r.duration == Int(service.value.duration)
    ensures service.Some? && service.value.duration == 0 ==> r.duration == Int(30)
    ensures service.Some? && service.value.category != "" ==> r.category == service.value.category
    ensures service.Some? && service.value.category == "" ==> r.category == DefaultCategory(categories)
  {
    match service
    case None => ServiceDraft("", "", Int(30), Int(0), DefaultCategory(categories))
    case Some(s) =>
      ServiceDraft(s.name, s.description,
                   Int(if s.duration != 0 then s.duration else 30),
                   Int(s.price),
                   if s.category != "" then s.category else DefaultCategory(categories))
  }

  // ---------------------------------------------------------------- typing

  /** `handleChange`: the duration is read with `parseInt(value, 10)` and the
      price with `parseFloat`, the other inputs are stored as typed. */
  function Changed(form: ServiceDraft, input: Input, value: string): (r: ServiceDraft)
    ensures input == NameInput ==> r == form.(name := value)
    ensures input == DescriptionInput ==> r == form.(description := value)
    ensures input == DurationInput ==> r == form.(duration := ParseInt(value))
    ensures input == PriceInput ==> r == form.(price := ParseInt(value))
  {
    match input
    case NameInput => form.(name := value)
    case DescriptionInput => form.(description := value)
    case DurationInput => form.(duration := ParseInt(value))
    case PriceInput => form.(price := ParseInt(value))
  }

  /** Typing the decimal text of a number stores that number, and clearing
      a number input stores `NaN`. */
  lemma NumberInputsRead(form: ServiceDraft, n: int)
    ensures Changed(form, DurationInput, IntToString(n)).duration == Int(n)
    ensures Changed(form, PriceInput, IntToString(n)).price == Int(n)
    ensures Changed(form, DurationInput, "").duration == NaN
    ensures Changed(form, PriceInput, "").price == NaN
  {
    ParseIntOfIntToString(n);
  }

  // ---------------------------------------------------------------- validation

  const NameRequired := "El nombre es requerido"
  const DescriptionRequired := "La descripci\U{00F3}n es requerida"
  const DurationPositive := "La duraci\U{00F3}n debe ser mayor a 0"
  const PriceNotNegative := "El precio no puede ser negativo"
  const CategoryRequired := "La categor\U{00ED}a es requerida"

  /** `!duration || duration <= 0`: `NaN` and zero are falsy. */
  function DurationError(duration: Num): (r: Option<string>)
    ensures r.None? <==> duration.Int? && duration.value > 0
  {
    if duration.NaN? || duration.value <= 0 then Some(DurationPositive) else None
  }

  /** `price < 0` as written: a comparison with `NaN` is false, so a price
      that did not parse passes. */
  function PriceErrorAsWritten(price: Num): (r: Option<string>)
    ensures r.None? <==> price.NaN? || price.value >= 0
  {
    if price.Int? && price.value < 0 then Some(PriceNotNegative) else None
  }

  /** The price check the form evidently intends: a number that is not
      negative. */
  function PriceError(price: Num): (r: Option<string>)
    ensures r.None? <==> price.Int? && price.value >= 0
  {
    if price.NaN? || price.value < 0 then Some(PriceNotNegative) else None
  }

  /** The keys of the error record: the five fields `validate` checks. */
  datatype Field = NameField | DescriptionField | DurationField | PriceField | CategoryField

  /** The record `validate` fills, given the price check it uses. */
  function ErrorsGiven(form: ServiceDraft, priceError: Option<string>): (r: map<Field, string>)
    ensures NameField in r <==> IsBlank(form.name)
    ensures DescriptionField in r <==> IsBlank(form.description)
    ensures DurationField in r <==> DurationError(form.duration).Some?
    ensures PriceField in r <==> priceError.Some?
    ensures CategoryField in r <==> IsBlank(form.category)
  {
    Entries5(NameField, BlankError(form.name, NameRequired),
             DescriptionField, BlankError(form.description, DescriptionRequired),
             DurationField, DurationError(form.duration),
             PriceField, priceError,
             CategoryField, BlankError(form.category, CategoryRequired))
  }

  /** The errors of `validate` as written. */
  function ServiceFormErrorsAsWritten(form: ServiceDraft): map<Field, string>
  {
    ErrorsGiven(form, PriceErrorAsWritten(form.price))
  }

  /** The errors of `validate`, with a price that must be a number. */
  function ServiceFormErrors(form: ServiceDraft): map<Field, string>
  {
    ErrorsGiven(form, PriceError(form.price))
  }

  /** As written, a cleared price input (`NaN`) passes validation. */
  lemma NaNPriceAcceptedAsWritten()
    ensures ServiceFormErrorsAsWritten(ServiceDraft("Corte", "Corte y peinado", Int(30), NaN, "Cabello")) == map[]
  {
    var f := ServiceDraft("Corte", "Corte y peinado", Int(30), NaN, "Cabello");
    NonSpaceNotBlank(f.name, 0);
    NonSpaceNotBlank(f.description, 0);
    NonSpaceNotBlank(f.category, 0);
    assert forall k :: k !in ServiceFormErrorsAsWritten(f);
  }

  /** With the intended check the same form is refused under `price`, and
      the two validators agree on every form whose price is a number. */
  lemma NaNPriceRejected(form: ServiceDraft)
    ensures form.price.NaN? ==> PriceField in ServiceFormErrors(form)
    ensures form.price.Int? ==> ServiceFormErrors(form) == ServiceFormErrorsAsWritten(form)
  {
  }

  /** A draft without errors describes a service that makes sense: every
      text filled in, a positive duration, a price that is a number and not
      negative. */
  predicate Sensible(form: ServiceDraft)
  {
    !IsBlank(form.name) && !IsBlank(form.description) && !IsBlank(form.category) &&
    form.duration.Int? && form.duration.value > 0 && form.price.Int? && form.price.value >= 0
  }

  lemma NoErrorsIffSensible(form: ServiceDraft)
    ensures ServiceFormErrors(form) == map[] <==> Sensible(form)
  {
    var r := ServiceFormErrors(form);
    if Sensible(form) {
      assert forall k :: k !in r;
    } else {
      assert r != map[] by {
        if IsBlank(form.name) { assert NameField in r; }
        else if IsBlank(form.description) { assert DescriptionField in r; }
        else if IsBlank(form.category) { assert CategoryField in r; }
        else if !(form.duration.Int? && form.duration.value > 0) { assert DurationField in r; }
        else { assert PriceField in r; }
      }
    }
  }

  /** A price of zero is accepted; a duration of zero, a negative one or one
      that did not parse is not. */
  lemma NumberBounds(form: ServiceDraft)
    ensures form.price == Int(0) ==> PriceField !in ServiceFormErrors(form)
    ensures form.duration.NaN? || form.duration.value <= 0 ==> DurationField in ServiceFormErrors(form)
  {
  }

  /** A new form never starts with a duration or price error, but always
      with name and description errors; its category is missing only when
      there is no usable first category. */
  lemma NewFormErrors(categories: seq<string>)
    ensures NameField in ServiceFormErrors(InitialServiceForm(None, categories))
    ensures DescriptionField in ServiceFormErrors(InitialServiceForm(None, categories))
    ensures DurationField !in ServiceFormErrors(InitialServiceForm(None, categories))
    ensures PriceField !in ServiceFormErrors(InitialServiceForm(None, categories))
    ensures CategoryField in ServiceFormErrors(InitialServiceForm(None, categories)) <==>
            categories == [] || IsBlank(categories[0])
  {
  }

  /** The service a valid draft saves. */
  function ToInput(form: ServiceDraft): (r: ServiceInput)
    requires form.duration.Int? && form.price.Int?
    ensures r.name == form.name && r.description == form.description && r.category == form.category
    ensures Int(r.duration) == form.duration && Int(r.price) == form.price
  {
    ServiceInput(form.name, form.description, form.duration.value, form.price.value, form.category)
  }

  /** The update an edit sends: every field of the form. */
  function FullServicePatch(s: ServiceInput): ServicePatch
  {
    ServicePatch(Some(s.name), Some(s.description), Some(s.duration), Some(s.price), Some(s.category))
  }

  /** Saving an edit keeps the service's id and takes every other field
      from the form. */
  lemma FullServicePatchReplaces(s: Service, input: ServiceInput)
    ensures PatchService(s, FullServicePatch(input)) == NewServiceRecord(input, s.id)
  {
  }

  /** The body of `validate`: the record filled one field after another. */
  method CollectErrors(form: ServiceDraft) returns (newErrors: map<Field, string>)
    ensures newErrors == ServiceFormErrors(form)
  {
    newErrors := map[];
    newErrors := WithEntry(newErrors, NameField, BlankError(form.name, NameRequired));
    newErrors := WithEntry(newErrors, DescriptionField, BlankError(form.description, DescriptionRequired));
    newErrors := WithEntry(newErrors, DurationField, DurationError(form.duration));
    newErrors := WithEntry(newErrors, PriceField, PriceError(form.price));
    newErrors := WithEntry(newErrors, CategoryField, BlankError(form.category, CategoryRequired));
  }

  // ---------------------------------------------------------------- the form

  class ServiceFormState {
    /** The service being edited, if any, and the catalogue's categories. */
    const service: Option<Service>
    const categories: seq<string>
    var formData: ServiceDraft
    var errors: map<Field, string>
    var newCategory: string
    var showNewCategoryInput: bool

    constructor (service: Option<Service>, categories: seq<string>)
      ensures this.service == service && this.categories == categories
      ensures formData == InitialServiceForm(service, categories) && errors == map[]
      ensures newCategory == "" && !showNewCategoryInput
    {
      this.service := service;
      this.categories := categories;
      formData := InitialServiceForm(service, categories);
      errors := map[];
      newCategory := "";
      showNewCategoryInput := false;
    }

    /** `handleChange` */
    method Change(input: Input, value: string)
      modifies this
      ensures formData == Changed(old(formData), input, value)
      ensures errors == old(errors) && newCategory == old(newCategory)
      ensures showNewCategoryInput == old(showNewCategoryInput)
    {
      formData := Changed(formData, input, value);
    }

    /** `handleCategoryChange`: the entry `new` opens the new-category input
        and leaves the category as it was; any other entry is stored. */
    method CategoryChange(value: string)
      modifies this
      ensures value == "new" ==> formData == old(formData) && showNewCategoryInput
      ensures value != "new" ==>
        formData == old(formData).(category := value) && showNewCategoryInput == old(showNewCategoryInput)
      ensures errors == old(errors) && newCategory == old(newCategory)
    {
      if value == "new" {
        showNewCategoryInput := true;
      } else {
        formData := formData.(category := value);
      }
    }

    /** The new-category text input. */
    method NewCategoryChange(value: string)
      modifies this
      ensures newCategory == value
      ensures formData == old(formData) && errors == old(errors)
      ensures showNewCategoryInput == old(showNewCategoryInput)
    {
      newCategory := value;
    }

    /** `handleNewCategorySubmit`: a name that is not blank is stored trimmed
        and the input closes and empties; a blank one changes nothing. */
    method NewCategorySubmit()
      modifies this
      ensures !IsBlank(old(newCategory)) ==>
        formData == old(formData).(category := Trim(old(newCategory))) &&
        !showNewCategoryInput && newCategory == ""
      ensures IsBlank(old(newCategory)) ==>
        formData == old(formData) && showNewCategoryInput == old(showNewCategoryInput) &&
        newCategory == old(newCategory)
      ensures errors == old(errors)
    {
      if !IsBlank(newCategory) {
        formData := formData.(category := Trim(newCategory));
        showNewCategoryInput := false;
        newCategory := "";
      }
    }

    /** The cancel button of the new-category input: closes it and goes back
        to the first category. */
    method CancelNewCategory()
      modifies this
      ensures !showNewCategoryInput
      ensures formData == old(formData).(category := DefaultCategory(categories))
      ensures errors == old(errors) && newCategory == old(newCategory)
    {
      showNewCategoryInput := false;
      formData := formData.(category := DefaultCategory(categories));
    }

    /** `validate()` with the intended price check. */
    method Validate() returns (valid: bool)
      modifies this
      ensures errors == ServiceFormErrors(formData)
      ensures valid <==> errors == map[]
      ensures formData == old(formData) && newCategory == old(newCategory)
      ensures showNewCategoryInput == old(showNewCategoryInput)
    {
      var newErrors := CollectErrors(formData);
      errors := newErrors;
      valid := |errors.Keys| == 0;
      NoKeysEmpty(errors);
    }

    /** `handleSubmit`: nothing reaches the store unless the form validates,
        here with the intended price check, since a stored price cannot be
        `NaN`; then an edit updates the service with the whole form and a new
        service is added. */
    method Submit(store: DataStore) returns (saved: bool)
      requires store.Valid()
      modifies this, store
      ensures store.Valid()
      ensures saved <==> Sensible(old(formData))
      ensures errors == ServiceFormErrors(old(formData)) && formData == old(formData)
      ensures !saved ==> store.services == old(store.services)
      ensures saved && service.Some? ==>
        store.services == UpdateServices(old(store.services), service.value.id, FullServicePatch(ToInput(formData)))
      ensures saved && service.None? ==>
        store.services == old(store.services) + [NewServiceRecord(ToInput(formData), FreshId(old(store.issued)))]
      ensures store.clients == old(store.clients) && store.appointments == old(store.appointments)
      ensures store.employees == old(store.employees) && store.transactions == old(store.transactions)
    {
      saved := Validate();
      NoErrorsIffSensible(formData);
      if !saved {
        return;
      }
      if service.Some? {
        store.UpdateService(service.value.id, FullServicePatch(ToInput(formData)));
      } else {
        store.AddService(ToInput(formData));
      }
    }
  }

  /** A category submitted through the new-category input is no longer
      blank, so it clears the category error, and submitting its stored
      form again stores the same text. */
  lemma NewCategoryIsUsable(form: ServiceDraft, typed: string)
    requires !IsBlank(typed)
    ensures CategoryField !in ServiceFormErrors(form.(category := Trim(typed)))
    ensures Trim(Trim(typed)) == Trim(typed)
  {
    TrimIdempotent(typed);
  }
}
