/** The admin page that adds a salary record or edits one: a form whose
    employee comes from a dropdown, is pre-filled from the page's query in add
    mode and fixed in edit mode, a load of the record and of the employee list,
    and a save that turns empty dates into absent ones. */
module AddSalary {
  import opened JsText
  import opened Http

  /** What the form's `employee` slot holds: an employee id (the dropdown's
      values, the query's, or a loaded one), nothing at all, or a loaded
      employee object that had no usable id. */
  datatype EmployeeValue = Id(id: string) | Missing | EmployeeObject

  datatype SalaryForm = SalaryForm(
    employee: EmployeeValue, amount: Value, startDate: string, endDate: string,
    status: string, notes: string)

  const InitialForm := SalaryForm(Id(""), Text(""), "", "", "Paid", "")

  /** The inputs that `handleChange` serves, by their `name` attribute. */
  datatype SalaryField = Employee | Amount | StartDate | EndDate | Status | Notes

  /** The record's `employee` as the server returns it: missing, an id, or
      the employee object itself with its `_id` (which may be missing too). */
  datatype EmployeeRef = Absent | ById(id: string) | Embedded(embeddedId: Option<string>)

  datatype LoadedSalary = LoadedSalary(
    employee: EmployeeRef, amount: Option<Value>, startDate: Option<string>, endDate: Option<string>,
    status: Option<string>, notes: Option<string>)

  /** One entry of the employee dropdown. */
  datatype EmployeeSummary = EmployeeSummary(id: string, firstName: string, lastName: string, position: string)

  /** The body that is sent: the form with its dates as timestamps, an empty
      date left out. */
  datatype SalaryPayload = SalaryPayload(
    employee: EmployeeValue, amount: Value, startDate: Option<string>, endDate: Option<string>,
    status: string, notes: string)

  datatype Request = Create(body: SalaryPayload) | Update(id: string, body: SalaryPayload)

  const SalaryLoadFailed := "Failed to load salary details."
  const SalarySaveFailed := "Failed to save salary. Please check your inputs."
  const EmployeesLoadFailed := "Failed to load employees for selection."
  const SalariesPath := "/admin/salaries"

  function FieldValue(f: SalaryForm, field: SalaryField): Value
  {
    match field
    case Employee => Text(if f.employee.Id? then f.employee.id else "")
    case Amount => f.amount
    case StartDate => Text(f.startDate)
    case EndDate => Text(f.endDate)
    case Status => Text(f.status)
    case Notes => Text(f.notes)
  }

  /** The record after an input reports `value`: the dropdown's value is an
      employee id; every other field is as before. */
  function WithField(f: SalaryForm, field: SalaryField, value: string): (r: SalaryForm)
    ensures FieldValue(r, field) == Text(value)
    ensures field == Employee ==> r.employee == Id(value)
    ensures forall g :: g != field ==> FieldValue(r, g) == FieldValue(f, g)
    ensures field != Employee ==> r.employee == f.employee
  {
    match field
    case Employee => f.(employee := Id(value))
    case Amount => f.(amount := Text(value))
    case StartDate => f.(startDate := value)
    case EndDate => f.(endDate := value)
    case Status => f.(status := value)
    case Notes => f.(notes := value)
  }

  /** The nested `_id` when it is truthy, otherwise the raw value: a plain id
      is kept as it is, even empty; an object without an id stays an object. */
  function EmployeeFromLoaded(e: EmployeeRef): (r: EmployeeValue)
    ensures e.ById? ==> r == Id(e.id)
    ensures e.Embedded? && TextTruthy(e.embeddedId) ==> r == Id(e.embeddedId.value)
    ensures e.Embedded? && !TextTruthy(e.embeddedId) ==> r == EmployeeObject
    ensures e.Absent? ==> r == Missing
    ensures r.Id? <==> e.ById? || (e.Embedded? && TextTruthy(e.embeddedId))
  {
    match e
    case Absent => Missing
    case ById(id) => Id(id)
    case Embedded(id) => if TextTruthy(id) then Id(id.value) else EmployeeObject
  }

  /** The form a load produces; `toDay` stands for parsing an ISO timestamp
      and formatting it as a calendar day. */
  function FromLoaded(d: LoadedSalary, toDay: string -> string): (r: SalaryForm)
    ensures r.employee == EmployeeFromLoaded(d.employee)
    ensures r.amount == (if ValueTruthy(d.amount) then d.amount.value else InitialForm.amount)
    ensures r.startDate == (if TextTruthy(d.startDate) then toDay(d.startDate.value) else InitialForm.startDate)
    ensures r.endDate == (if TextTruthy(d.endDate) then toDay(d.endDate.value) else InitialForm.endDate)
    ensures r.status == (if TextTruthy(d.status) then d.status.value else InitialForm.status)
    ensures r.notes == (if TextTruthy(d.notes) then d.notes.value else InitialForm.notes)
  {
    SalaryForm(
      EmployeeFromLoaded(d.employee), OrValue(d.amount, Text("")),
      if TextTruthy(d.startDate) then toDay(d.startDate.value) else "",
      if TextTruthy(d.endDate) then toDay(d.endDate.value) else "",
      OrText(d.status, "Paid"), OrText(d.notes, ""))
  }

  /** A date that is set, as the timestamp `toIso` makes of it; an empty one
      is absent from the body. */
  function DateField(day: string, toIso: string -> string): (r: Option<string>)
    ensures r.None? <==> day == ""
    ensures r.Some? ==> r.value == toIso(day)
  {
    if day != "" then Some(toIso(day)) else None
  }

  /** The body of the save: the form's employee, amount, status and notes
      as they are, and its dates converted or left out. */
  function PayloadOf(f: SalaryForm, toIso: string -> string): (p: SalaryPayload)
    ensures p.employee == f.employee && p.amount == f.amount
    ensures p.status == f.status && p.notes == f.notes
    ensures p.startDate.None? <==> f.startDate == ""
    ensures p.endDate.None? <==> f.endDate == ""
    ensures p.startDate.Some? ==> p.startDate.value == toIso(f.startDate)
    ensures p.endDate.Some? ==> p.endDate.value == toIso(f.endDate)
  {
    SalaryPayload(f.employee, f.amount, DateField(f.startDate, toIso), DateField(f.endDate, toIso),
                  f.status, f.notes)
  }

  /** The initial form has no dates, so its body carries none. */
  lemma InitialFormSendsNoDates(toIso: string -> string)
    ensures PayloadOf(InitialForm, toIso).startDate == None
    ensures PayloadOf(InitialForm, toIso).endDate == None
  {
  }

  /** The add-mode pre-fill: the query's `employeeId`, or an empty id. */
  function Prefill(f: SalaryForm, employeeIdParam: Option<string>): (r: SalaryForm)
    ensures r.employee == Id(if TextTruthy(employeeIdParam) then employeeIdParam.value else "")
    ensures forall g :: g != Employee ==> FieldValue(r, g) == FieldValue(f, g)
  {
    f.(employee := Id(OrText(employeeIdParam, "")))
  }

  class AddSalaryPage {
    /** The id in the route; the page edits when it is non-empty. */
    const salaryId: Option<string>
    var form: SalaryForm
    var submitting: bool
    var submitError: Option<string>
    var submitSuccess: bool
    var loadingSalary: bool
    var salaryFetchError: Option<string>
    var employees: seq<EmployeeSummary>
    var loadingEmployees: bool
    var employeeDropdownError: Option<string>

    constructor (salaryId: Option<string>)
      ensures this.salaryId == salaryId && form == InitialForm
      ensures !submitting && submitError == None && !submitSuccess
      ensures loadingSalary && salaryFetchError == None
      ensures employees == [] && loadingEmployees && employeeDropdownError == None
    {
      this.salaryId := salaryId;
      form := InitialForm;
      submitting, submitError, submitSuccess := false, None, false;
      loadingSalary, salaryFetchError := true, None;
      employees, loadingEmployees, employeeDropdownError := [], true, None;
    }

    /** The save button is disabled while saving, while an edited record is
        still loading, and while the employee list is loading. */
    predicate SubmitDisabled()
      reads this
      ensures submitting || loadingEmployees ==> SubmitDisabled()
      ensures !EditMode(salaryId) ==> (SubmitDisabled() <==> submitting || loadingEmployees)
      ensures !submitting && !loadingEmployees && !loadingSalary ==> !SubmitDisabled()
    {
      submitting || (EditMode(salaryId) && loadingSalary) || loadingEmployees
    }

    /** The employee dropdown cannot be changed when editing. */
    predicate SelectorDisabled()
      ensures SelectorDisabled() <==> salaryId.Some? && salaryId.value != ""
    {
      EditMode(salaryId)
    }

    /** The first effect on mounting: start loading the employee list, or
        report the missing token and leave. */
    method StartEmployeesLoad(token: Option<string>) returns (effect: Effect, fetching: bool)
      modifies this`loadingEmployees, this`employeeDropdownError
      ensures fetching <==> HasToken(token)
      ensures effect == (if HasToken(token) then Stay else RedirectHome)
      ensures loadingEmployees <==> HasToken(token)
      ensures employeeDropdownError == (if HasToken(token) then None else Some(TokenNotFound))
    {
      loadingEmployees := true;
      employeeDropdownError := None;
      if !HasToken(token) {
        employeeDropdownError := Some(TokenNotFound);
        loadingEmployees := false;
        return RedirectHome, false;
      }
      effect, fetching := Stay, true;
    }

    /** The end of that load: the list is stored, or one fixed message is
        shown whatever the error was (a 401 included). */
    method CompleteEmployeesLoad(result: Fetch<seq<EmployeeSummary>>)
      modifies this`employees, this`loadingEmployees, this`employeeDropdownError
      ensures !loadingEmployees
      ensures result.Fetched? ==> employees == result.data && employeeDropdownError == old(employeeDropdownError)
      ensures result.FetchFailed? ==> employees == old(employees) && employeeDropdownError == Some(EmployeesLoadFailed)
    {
      match result {
        case Fetched(list) =>
          employees := list;
        case FetchFailed(_) =>
          employeeDropdownError := Some(EmployeesLoadFailed);
      }
      loadingEmployees := false;
    }

    /** The second effect on mounting: without a token it leaves; in edit
        mode it starts loading the record; in add mode it pre-fills the
        employee from the page's query and stops the loading state. */
    method StartSalaryLoad(token: Option<string>, query: Query)
      returns (effect: Effect, fetching: bool)
      modifies this`form, this`loadingSalary, this`salaryFetchError, this`submitError, this`submitSuccess
      ensures effect == (if HasToken(token) then Stay else RedirectHome)
      ensures fetching <==> HasToken(token) && EditMode(salaryId)
      ensures !HasToken(token) ==>
                && form == old(form) && loadingSalary == old(loadingSalary)
                && salaryFetchError == old(salaryFetchError)
                && submitError == old(submitError) && submitSuccess == old(submitSuccess)
      ensures fetching ==>
                && form == old(form) && loadingSalary && salaryFetchError == None
                && submitError == None && !submitSuccess
      ensures HasToken(token) && !EditMode(salaryId) ==>
                && form == Prefill(old(form), QueryGet(query, "employeeId")) && !loadingSalary
                && salaryFetchError == old(salaryFetchError)
                && submitError == old(submitError) && submitSuccess == old(submitSuccess)
    {
      if !HasToken(token) {
        return RedirectHome, false;
      }
      var initialEmployeeId := QueryGet(query, "employeeId");
      if EditMode(salaryId) {
        loadingSalary := true;
        salaryFetchError := None;
        submitError := None;
        submitSuccess := false;
        fetching := true;
      } else {
        form := Prefill(form, initialEmployeeId);
        loadingSalary := false;
        fetching := false;
      }
      effect := Stay;
    }

    /** The end of the record load: the form takes the record's values with
        defaults, or the error is reported; loading stops either way. */
    method CompleteSalaryLoad(result: Fetch<LoadedSalary>, toDay: string -> string) returns (effect: Effect)
      modifies this`form, this`salaryFetchError, this`loadingSalary
      ensures !loadingSalary
      ensures result.Fetched? ==>
                form == FromLoaded(result.data, toDay) && salaryFetchError == old(salaryFetchError) && effect == Stay
      ensures result.FetchFailed? ==>
                && form == old(form)
                && salaryFetchError == Some(Caught(result.error, SalaryLoadFailed).message)
                && effect == Caught(result.error, SalaryLoadFailed).effect
    {
      match result {
        case Fetched(data) =>
          form := FromLoaded(data, toDay);
          effect := Stay;
        case FetchFailed(error) =>
          var report := Caught(error, SalaryLoadFailed);
          salaryFetchError := Some(report.message);
          effect := report.effect;
      }
      loadingSalary := false;
    }

    method HandleChange(field: SalaryField, value: string)
      modifies this`form
      ensures form == WithField(old(form), field, value)
    {
      form := WithField(form, field, value);
    }

    /** The part of the submit handler before the request: without a token
        it reports and leaves; otherwise `request` is what is sent. */
    method StartSubmit(token: Option<string>, toIso: string -> string) returns (effect: Effect, request: Option<Request>)
      modifies this`submitting, this`submitError, this`submitSuccess
      ensures !submitSuccess
      ensures !HasToken(token) ==>
                && !submitting && submitError == Some(TokenNotFound)
                && effect == RedirectHome && request == None
      ensures HasToken(token) ==> submitting && submitError == None && effect == Stay && SubmitDisabled()
      ensures HasToken(token) && EditMode(salaryId) ==> request == Some(Update(salaryId.value, PayloadOf(form, toIso)))
      ensures HasToken(token) && !EditMode(salaryId) ==> request == Some(Create(PayloadOf(form, toIso)))
    {
      submitting := true;
      submitError := None;
      submitSuccess := false;
      if !HasToken(token) {
        submitError := Some(TokenNotFound);
        submitting := false;
        return RedirectHome, None;
      }
      var payload := PayloadOf(form, toIso);
      if EditMode(salaryId) {
        request := Some(Update(salaryId.value, payload));
      } else {
        request := Some(Create(payload));
      }
      effect := Stay;
    }

    /** The part of the submit handler after the request. A save resets the
        form only when a record was added. */
    method CompleteSubmit(outcome: Outcome) returns (effect: Effect)
      modifies this`form, this`submitting, this`submitError, this`submitSuccess
      ensures !submitting
      ensures outcome.Resolved? && Saved(outcome.status) ==>
                && submitSuccess && submitError == old(submitError)
                && effect == ReturnToListLater(SalariesPath)
      ensures outcome.Resolved? && Saved(outcome.status) && !EditMode(salaryId) ==> form == InitialForm
      ensures !(outcome.Resolved? && Saved(outcome.status) && !EditMode(salaryId)) ==> form == old(form)
      ensures outcome.Resolved? && !Saved(outcome.status) ==>
                submitSuccess == old(submitSuccess) && submitError == old(submitError) && effect == Stay
      ensures outcome.Thrown? ==>
                && submitSuccess == old(submitSuccess)
                && submitError == Some(Caught(outcome.error, SalarySaveFailed).message)
                && effect == Caught(outcome.error, SalarySaveFailed).effect
    {
      match outcome {
        case Resolved(status) =>
          if Saved(status) {
            submitSuccess := true;
            if !EditMode(salaryId) {
              form := InitialForm;
            }
            effect := ReturnToListLater(SalariesPath);
          } else {
            effect := Stay;
          }
        case Thrown(error) =>
          var report := Caught(error, SalarySaveFailed);
          submitError := Some(report.message);
          effect := report.effect;
      }
      submitting := false;
    }
  }
}
