/** The admin page that adds an employee or edits an existing one: a form
    record with a nested address, a load that fills it from the server, and a
    save whose errors are told apart by status, a conflict first. */
module AddEmployee {
  import opened JsText
  import opened Http

  datatype Address = Address(street: string, city: string, state: string, zipCode: string, country: string)

  /** The form record. The salary holds what its number input produces (text)
      or what a load put there (a number). */
  datatype EmployeeForm = EmployeeForm(
    firstName: string, lastName: string, email: string, phoneNumber: string,
    position: string, salary: Value, address: Address)

  const EmptyAddress := Address("", "", "", "", "")
  const InitialForm := EmployeeForm("", "", "", "", "Receptionist", Text(""), EmptyAddress)

  /** The inputs that `handleChange` serves, by their `name` attribute. */
  datatype EmployeeField = FirstName | LastName | Email | PhoneNumber | Position | Salary

  /** The inputs that `handleAddressChange` serves. */
  datatype AddressField = Street | City | State | ZipCode | Country

  /** An employee as the server returns it; any field may be missing,
      the address included. */
  datatype LoadedAddress = LoadedAddress(
    street: Option<string>, city: Option<string>, state: Option<string>,
    zipCode: Option<string>, country: Option<string>)
  datatype LoadedEmployee = LoadedEmployee(
    firstName: Option<string>, lastName: Option<string>, email: Option<string>,
    phoneNumber: Option<string>, position: Option<string>, salary: Option<Value>,
    address: Option<LoadedAddress>)

  /** The body of the save request: a new employee, or an update that also
      carries the employee's id as `_id`. */
  datatype Request = Create(body: EmployeeForm) | Update(id: string, body: EmployeeForm)

  const EmployeeLoadFailed := "Failed to load employee details."
  const EmployeeSaveFailed := "Failed to save employee. Please check your inputs."
  const DuplicatePhone := "Employee with this phone number already exists."
  const EmployeesPath := "/admin/employees"

  function FieldValue(f: EmployeeForm, field: EmployeeField): Value
  {
    match field
    case FirstName => Text(f.firstName)
    case LastName => Text(f.lastName)
    case Email => Text(f.email)
    case PhoneNumber => Text(f.phoneNumber)
    case Position => Text(f.position)
    case Salary => f.salary
  }

  function AddressValue(a: Address, field: AddressField): string
  {
    match field
    case Street => a.street
    case City => a.city
    case State => a.state
    case ZipCode => a.zipCode
    case Country => a.country
  }

  /** The record after a top-level input reports `value`: that input shows
      it, every other one and the whole address are as before. */
  function WithField(f: EmployeeForm, field: EmployeeField, value: string): (r: EmployeeForm)
    ensures FieldValue(r, field) == Text(value)
    ensures forall g :: g != field ==> FieldValue(r, g) == FieldValue(f, g)
    ensures r.address == f.address
  {
    match field
    case FirstName => f.(firstName := value)
    case LastName => f.(lastName := value)
    case Email => f.(email := value)
    case PhoneNumber => f.(phoneNumber := value)
    case Position => f.(position := value)
    case Salary => f.(salary := Text(value))
  }

  /** The record after an address input reports `value`: that address field
      holds it, the other four and every top-level field are as before. */
  function WithAddressField(f: EmployeeForm, field: AddressField, value: string): (r: EmployeeForm)
    ensures AddressValue(r.address, field) == value
    ensures forall g :: g != field ==> AddressValue(r.address, g) == AddressValue(f.address, g)
    ensures forall g :: FieldValue(r, g) == FieldValue(f, g)
  {
    var a := f.address;
    f.(address := match field
      case Street => a.(street := value)
      case City => a.(city := value)
      case State => a.(state := value)
      case ZipCode => a.(zipCode := value)
      case Country => a.(country := value))
  }

  /** The address a load produces: each sub-field the server sent with a
      truthy value, otherwise empty, and all five empty when there is no
      address at all. */
  function AddressFromLoaded(a: Option<LoadedAddress>): (r: Address)
    ensures a.None? ==> r == EmptyAddress
    ensures a.Some? ==> r.street == (if TextTruthy(a.value.street) then a.value.street.value else "")
    ensures a.Some? ==> r.city == (if TextTruthy(a.value.city) then a.value.city.value else "")
    ensures a.Some? ==> r.state == (if TextTruthy(a.value.state) then a.value.state.value else "")
    ensures a.Some? ==> r.zipCode == (if TextTruthy(a.value.zipCode) then a.value.zipCode.value else "")
    ensures a.Some? ==> r.country == (if TextTruthy(a.value.country) then a.value.country.value else "")
  {
    match a
    case None => EmptyAddress
    case Some(d) =>
      Address(OrText(d.street, ""), OrText(d.city, ""), OrText(d.state, ""),
              OrText(d.zipCode, ""), OrText(d.country, ""))
  }

  /** The form a load produces: each field the server sent with a truthy
      value, otherwise the initial form's value for it. */
  function FromLoaded(d: LoadedEmployee): (r: EmployeeForm)
    ensures r.firstName == (if TextTruthy(d.firstName) then d.firstName.value else InitialForm.firstName)
    ensures r.lastName == (if TextTruthy(d.lastName) then d.lastName.value else InitialForm.lastName)
    ensures r.email == (if TextTruthy(d.email) then d.email.value else InitialForm.email)
    ensures r.phoneNumber == (if TextTruthy(d.phoneNumber) then d.phoneNumber.value else InitialForm.phoneNumber)
    ensures r.position == (if TextTruthy(d.position) then d.position.value else InitialForm.position)
    ensures r.salary == (if ValueTruthy(d.salary) then d.salary.value else InitialForm.salary)
    ensures d.address.None? ==> r.address == InitialForm.address
    ensures r.address == AddressFromLoaded(d.address)
  {
    EmployeeForm(
      OrText(d.firstName, ""), OrText(d.lastName, ""), OrText(d.email, ""),
      OrText(d.phoneNumber, ""), OrText(d.position, "Receptionist"),
      OrValue(d.salary, Text("")), AddressFromLoaded(d.address))
  }

  /** An employee with nothing filled in loads as the initial form. */
  lemma EmptyRecordLoadsInitialForm()
    ensures FromLoaded(LoadedEmployee(None, None, None, None, None, None, None)) == InitialForm
    ensures FromLoaded(LoadedEmployee(None, None, None, None, None, None,
                                      Some(LoadedAddress(None, None, None, None, None)))) == InitialForm
  {
  }

  /** `err.response && err.response.status === 409`. */
  predicate Conflict(e: HttpError)
  {
    e.ErrorResponse? && e.status == 409
  }

  /** The catch block of the save: a conflict shows the server's message or
      the duplicate-phone text and stays, 401 drops the token and leaves,
      anything else shows the server's message or the fallback and stays. */
  function CaughtSave(e: HttpError): (r: Report)
    ensures Conflict(e) ==> r == Report(ServerMessageOr(e, DuplicatePhone), Stay)
    ensures !Conflict(e) ==> r == Caught(e, EmployeeSaveFailed)
    ensures r.effect == DropTokenAndRedirectHome <==> Unauthorized(e)
  {
    if Conflict(e) then Report(OrText(e.message, DuplicatePhone), Stay)
    else if Unauthorized(e) then Report(SessionExpired, DropTokenAndRedirectHome)
    else Report(ServerMessageOr(e, EmployeeSaveFailed), Stay)
  }

  /** A conflict without a message of its own is reported as a duplicate
      phone number, never as the general failure. */
  lemma ConflictWithoutMessage(m: Option<string>)
    requires !TextTruthy(m)
    ensures CaughtSave(ErrorResponse(409, m)).message == DuplicatePhone
    ensures CaughtSave(ErrorResponse(409, m)).message != CaughtSave(ErrorResponse(500, m)).message
  {
  }

  class AddEmployeePage {
    /** The id in the route; the page edits when it is non-empty. */
    const id: Option<string>
    var form: EmployeeForm
    var submitting: bool
    var submitError: Option<string>
    var submitSuccess: bool
    var loadingEmployee: bool
    var employeeFetchError: Option<string>

    constructor (id: Option<string>)
      ensures this.id == id && form == InitialForm
      ensures !submitting && submitError == None && !submitSuccess
      ensures loadingEmployee && employeeFetchError == None
    {
      this.id := id;
      form := InitialForm;
      submitting, submitError, submitSuccess := false, None, false;
      loadingEmployee, employeeFetchError := true, None;
    }

    /** The save button is disabled exactly while a save is in progress. */
    predicate SubmitDisabled()
      reads this
      ensures SubmitDisabled() <==> submitting
      ensures loadingEmployee && !submitting ==> !SubmitDisabled()
    {
      submitting
    }

    /** The effect that runs on mounting: without a token it leaves; in edit
        mode it starts loading the employee (`fetching`); in add mode it stops
        the loading state. */
    method StartLoad(token: Option<string>) returns (effect: Effect, fetching: bool)
      modifies this`loadingEmployee, this`employeeFetchError, this`submitError, this`submitSuccess
      ensures effect == (if HasToken(token) then Stay else RedirectHome)
      ensures fetching <==> HasToken(token) && EditMode(id)
      ensures !HasToken(token) ==>
                && loadingEmployee == old(loadingEmployee) && employeeFetchError == old(employeeFetchError)
                && submitError == old(submitError) && submitSuccess == old(submitSuccess)
      ensures fetching ==> loadingEmployee && employeeFetchError == None && submitError == None && !submitSuccess
      ensures HasToken(token) && !EditMode(id) ==>
                && !loadingEmployee && employeeFetchError == old(employeeFetchError)
                && submitError == old(submitError) && submitSuccess == old(submitSuccess)
    {
      if !HasToken(token) {
        return RedirectHome, false;
      }
      if EditMode(id) {
        loadingEmployee := true;
        employeeFetchError := None;
        submitError := None;
        submitSuccess := false;
        fetching := true;
      } else {
        loadingEmployee := false;
        fetching := false;
      }
      effect := Stay;
    }

    /** The end of the load: the form takes the employee's values with
        defaults, or the error is reported; loading stops either way. */
    method CompleteLoad(result: Fetch<LoadedEmployee>) returns (effect: Effect)
      modifies this`form, this`employeeFetchError, this`loadingEmployee
      ensures !loadingEmployee
      ensures result.Fetched? ==>
                form == FromLoaded(result.data) && employeeFetchError == old(employeeFetchError) && effect == Stay
      ensures result.FetchFailed? ==>
                && form == old(form)
                && employeeFetchError == Some(Caught(result.error, EmployeeLoadFailed).message)
                && effect == Caught(result.error, EmployeeLoadFailed).effect
    {
      match result {
        case Fetched(data) =>
          form := FromLoaded(data);
          effect := Stay;
        case FetchFailed(error) =>
          var report := Caught(error, EmployeeLoadFailed);
          employeeFetchError := Some(report.message);
          effect := report.effect;
      }
      loadingEmployee := false;
    }

    method HandleChange(field: EmployeeField, value: string)
      modifies this`form
      ensures form == WithField(old(form), field, value)
    {
      form := WithField(form, field, value);
    }

    method HandleAddressChange(field: AddressField, value: string)
      modifies this`form
      ensures form == WithAddressField(old(form), field, value)
    {
      form := WithAddressField(form, field, value);
    }

    /** The part of the submit handler before the request: without a token
        it reports and leaves; otherwise `request` is what is sent. */
    method StartSubmit(token: Option<string>) returns (effect: Effect, request: Option<Request>)
      modifies this`submitting, this`submitError, this`submitSuccess
      ensures !submitSuccess
      ensures !HasToken(token) ==>
                && !submitting && submitError == Some(TokenNotFound)
                && effect == RedirectHome && request == None
      ensures HasToken(token) ==> submitting && submitError == None && effect == Stay
      ensures HasToken(token) && EditMode(id) ==> request == Some(Update(id.value, form))
      ensures HasToken(token) && !EditMode(id) ==> request == Some(Create(form))
      ensures SubmitDisabled() <==> HasToken(token)
    {
      submitting := true;
      submitError := None;
      submitSuccess := false;
      if !HasToken(token) {
        submitError := Some(TokenNotFound);
        submitting := false;
        return RedirectHome, None;
      }
      if EditMode(id) {
        request := Some(Update(id.value, form));
      } else {
        request := Some(Create(form));
      }
      effect := Stay;
    }

    /** The part of the submit handler after the request. A save resets the
        form only when an employee was added. */
    method CompleteSubmit(outcome: Outcome) returns (effect: Effect)
      modifies this`form, this`submitting, this`submitError, this`submitSuccess
      ensures !submitting && !SubmitDisabled()
      ensures outcome.Resolved? && Saved(outcome.status) ==>
                && submitSuccess && submitError == old(submitError)
                && effect == ReturnToListLater(EmployeesPath)
      ensures outcome.Resolved? && Saved(outcome.status) && !EditMode(id) ==> form == InitialForm
      ensures !(outcome.Resolved? && Saved(outcome.status) && !EditMode(id)) ==> form == old(form)
      ensures outcome.Resolved? && !Saved(outcome.status) ==>
                submitSuccess == old(submitSuccess) && submitError == old(submitError) && effect == Stay
      ensures outcome.Thrown? ==>
                && submitSuccess == old(submitSuccess)
                && submitError == Some(CaughtSave(outcome.error).message)
                && effect == CaughtSave(outcome.error).effect
    {
      match outcome {
        case Resolved(status) =>
          if Saved(status) {
            submitSuccess := true;
            if !EditMode(id) {
              form := InitialForm;
            }
            effect := ReturnToListLater(EmployeesPath);
          } else {
            effect := Stay;
          }
        case Thrown(error) =>
          var report := CaughtSave(error);
          submitError := Some(report.message);
          effect := report.effect;
      }
      submitting := false;
    }
  }
}
