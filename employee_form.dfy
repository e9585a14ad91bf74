/** The employee form: its initial contents, the closed list of positions,
    the validator and the submit dispatch. */
module EmployeeForm {
  import opened Seqs
  import opened Text
  import opened Types
  import opened DataContext

  /** The inputs wired to `handleChange`. */
  datatype Input = NameInput | PositionInput

  /** The form's starting contents: the employee's fields when editing,
      empty ones and no appointments for a new employee. */
  function InitialEmployeeForm(employee: Option<Employee>): (r: EmployeeInput)
    ensures employee.None? ==> r == EmployeeInput("", "", [])
    ensures employee.Some? ==>
      r.name == employee.value.name && r.position == employee.value.position &&
      r.appointmentIds == employee.value.appointmentIds
  {
    match employee
    case None => EmployeeInput("", "", [])
    case Some(e) => EmployeeInput(e.name, e.position, e.appointmentIds)
  }

  /** The appointments the form carries: those of the employee being
      edited, none for a new one. */
  function CarriedIds(employee: Option<Employee>): seq<Id>
  {
    if employee.Some? then employee.value.appointmentIds else []
  }

  /** `handleChange`: the typed value overwrites its field. */
  function Changed(form: EmployeeInput, input: Input, value: string): (r: EmployeeInput)
    ensures input == NameInput ==> r == form.(name := value)
    ensures input == PositionInput ==> r == form.(position := value)
    ensures r.appointmentIds == form.appointmentIds
  {
    match input
    case NameInput => form.(name := value)
    case PositionInput => form.(position := value)
  }

  // ---------------------------------------------------------------- positions

  /** The seven positions the select offers. */
  const Positions: seq<string> := [
    "Manicurista Junior",
    "Manicurista Senior",
    "Especialista en U\U{00F1}as Acr\U{00ED}licas",
    "Manicurista y Pedicurista",
    "Estilista de U\U{00F1}as",
    "Gerente",
    "Recepcionista"]

  /** The select's options: the empty placeholder, then the positions. */
  const PositionOptions: seq<string> := [""] + Positions

  // ---------------------------------------------------------------- validation

  const NameRequired := "El nombre es requerido"
  const PositionRequired := "El puesto es requerido"

  /** The keys of the error record: the two fields `validate` checks. */
  datatype Field = NameField | PositionField

  /** The errors `validate` records, one per field that has one. */
  function EmployeeFormErrors(form: EmployeeInput): (r: map<Field, string>)
    ensures NameField in r <==> IsBlank(form.name)
    ensures PositionField in r <==> IsBlank(form.position)
    ensures NameField in r ==> r[NameField] == NameRequired
    ensures PositionField in r ==> r[PositionField] == PositionRequired
    ensures r == map[] <==> !IsBlank(form.name) && !IsBlank(form.position)
  {
    var m := WithEntry(WithEntry(map[], NameField, BlankError(form.name, NameRequired)),
                       PositionField, BlankError(form.position, PositionRequired));
    assert NameField in m ==> m != map[];
    assert PositionField in m ==> m != map[];
    m
  }

  /** Picking the placeholder leaves the position required; picking any of
      the seven positions satisfies the check. */
  lemma OptionsAgainstCheck(form: EmployeeInput, i: nat)
    requires i < |PositionOptions|
    ensures |PositionOptions| == 8
    ensures PositionField in EmployeeFormErrors(form.(position := PositionOptions[i])) <==> i == 0
  {
    var p := PositionOptions[i];
    if i > 0 {
      assert p == Positions[i - 1];
      assert p[0] == 'M' || p[0] == 'E' || p[0] == 'G' || p[0] == 'R';
      NonSpaceNotBlank(p, 0);
    }
  }

  /** The update an edit sends: every field of the form. */
  function FullEmployeePatch(f: EmployeeInput): EmployeePatch
  {
    EmployeePatch(Some(f.name), Some(f.position), Some(f.appointmentIds))
  }

  /** Saving an edit keeps the employee's id and takes every other field
      from the form. */
  lemma FullEmployeePatchReplaces(e: Employee, f: EmployeeInput)
    ensures PatchEmployee(e, FullEmployeePatch(f)) == NewEmployeeRecord(f, e.id)
  {
  }

  /** The body of `validate`: the record filled one field after another. */
  method CollectErrors(form: EmployeeInput) returns (newErrors: map<Field, string>)
    ensures newErrors == EmployeeFormErrors(form)
  {
    newErrors := map[];
    newErrors := WithEntry(newErrors, NameField, BlankError(form.name, NameRequired));
    newErrors := WithEntry(newErrors, PositionField, BlankError(form.position, PositionRequired));
  }

  // ---------------------------------------------------------------- the form

  class EmployeeFormState {
    /** The employee being edited, if any. */
    const employee: Option<Employee>
    var formData: EmployeeInput
    var errors: map<Field, string>

    /** No input reaches the appointment ids: the form always carries the
        edited employee's, or none. */
    predicate Valid()
      reads this
    {
      formData.appointmentIds == CarriedIds(employee)
    }

    constructor (employee: Option<Employee>)
      ensures Valid()
      ensures this.employee == employee
      ensures formData == InitialEmployeeForm(employee) && errors == map[]
    {
      this.employee := employee;
      formData := InitialEmployeeForm(employee);
      errors := map[];
    }

    /** `handleChange` */
    method Change(input: Input, value: string)
      requires Valid()
      modifies this
      ensures Valid()
      ensures formData == Changed(old(formData), input, value)
      ensures errors == old(errors)
    {
      formData := Changed(formData, input, value);
    }

    /** `validate()` */
    method Validate() returns (valid: bool)
      requires Valid()
      modifies this
      ensures Valid()
      ensures errors == EmployeeFormErrors(formData)
      ensures valid <==> errors == map[]
      ensures formData == old(formData)
    {
      var newErrors := CollectErrors(formData);
      errors := newErrors;
      valid := |errors.Keys| == 0;
      NoKeysEmpty(errors);
    }

    /** `handleSubmit`: nothing reaches the store unless the form validates;
        then an edit updates the employee with the whole form, its
        appointment ids unchanged, and a new employee is added without
        any. */
    method Submit(store: DataStore) returns (saved: bool)
      requires Valid() && store.Valid()
      modifies this, store
      ensures Valid() && store.Valid()
      ensures saved <==> !IsBlank(old(formData).name) && !IsBlank(old(formData).position)
      ensures errors == EmployeeFormErrors(old(formData)) && formData == old(formData)
      ensures !saved ==> store.employees == old(store.employees)
      ensures saved && employee.Some? ==>
        store.employees == UpdateEmployees(old(store.employees), employee.value.id, FullEmployeePatch(formData)) &&
        formData.appointmentIds == employee.value.appointmentIds
      ensures saved && employee.None? ==>
        store.employees == old(store.employees) + [NewEmployeeRecord(formData, FreshId(old(store.issued)))] &&
        formData.appointmentIds == []
      ensures store.clients == old(store.clients) && store.services == old(store.services)
      ensures store.appointments == old(store.appointments) && store.transactions == old(store.transactions)
    {
      saved := Validate();
      if !saved {
        return;
      }
      if employee.Some? {
        store.UpdateEmployee(employee.value.id, FullEmployeePatch(formData));
      } else {
        store.AddEmployee(formData);
      }
    }
  }
}
