/** The card that shows one employee in the admin list, with links to add a
    salary for the employee, to edit them, and to delete them. */
module EmployeeCard {
  import opened JsText
  import opened Http
  import AddSalary

  datatype CardAddress = CardAddress(
    street: Option<string>, city: Option<string>, state: Option<string>,
    zipCode: Option<string>, country: Option<string>)

  datatype EmployeeRecord = EmployeeRecord(
    id: string, firstName: Option<string>, lastName: Option<string>,
    salary: Option<Value>, status: Option<string>, address: Option<CardAddress>)

  /** Where a link of the card leads: a path and its query, or a delete. */
  datatype Action = NavigateTo(path: string, query: Query) | DeleteRecord(id: string)

  const Green := "text-green-500"
  const Yellow := "text-yellow-500"
  const Red := "text-red-500"
  const Grey := "text-gray-400"
  const AddSalaryPath := "/admin/salaries/add"
  const EditPrefix := "/admin/employees/edit/"

  /** The colour class of an employment status: one colour per known status,
      grey for every other value and for a missing one. */
  function StatusColor(status: Option<string>): (r: string)
    ensures r == Green <==> status == Some("Active")
    ensures r == Red <==> status == Some("Inactive")
    ensures r == Yellow <==> status == Some("On Leave")
    ensures r == Grey <==> status !in {Some("Active"), Some("Inactive"), Some("On Leave")}
  {
    match status
    case Some("Active") => Green
    case Some("Inactive") => Red
    case Some("On Leave") => Yellow
    case _ => Grey
  }

  /** The salary shown: the employee's when it is truthy, otherwise 0. */
  function DisplayedSalary(e: EmployeeRecord): (r: Value)
    ensures ValueTruthy(e.salary) ==> r == e.salary.value
    ensures !ValueTruthy(e.salary) ==> r == Number(0)
  {
    OrValue(e.salary, Number(0))
  }

  /** What a string-or-missing field shows as a child of a JSX element: its
      text, or nothing at all when it is missing. */
  function Shown(v: Option<string>): (r: string)
    ensures v.None? ==> r == ""
    ensures v.Some? ==> r == v.value
  {
    OrText(v, "")
  }

  /** The address block, line by line, drawn only when there is an address:
      the street, then "city, state zip", then the country. A missing part
      shows as nothing, while the separators stay. */
  function AddressLines(e: EmployeeRecord): (r: seq<string>)
    ensures r == [] <==> e.address.None?
    ensures e.address.Some? ==> |r| == 3
    ensures e.address.Some? ==> var a := e.address.value;
      && r[0] == Shown(a.street)
      && r[1] == Shown(a.city) + ", " + Shown(a.state) + " " + Shown(a.zipCode)
      && r[2] == Shown(a.country)
  {
    match e.address
    case None => []
    case Some(a) =>
      [Shown(a.street),
       Shown(a.city) + ", " + Shown(a.state) + " " + Shown(a.zipCode),
       Shown(a.country)]
  }

  /** An address holding only a city shows empty first and last lines, and
      the separators of the middle line around nothing. */
  lemma CityOnlyAddress(e: EmployeeRecord)
    requires e.address == Some(CardAddress(None, Some("Pune"), None, None, None))
    ensures AddressLines(e) == ["", "Pune,  ", ""]
  {
    var r := AddressLines(e);
    assert r[0] == "" && r[2] == "";
    assert r[1] == "Pune" + ", " + "" + " " + "";
    assert "Pune" + ", " + "" + " " + "" == "Pune,  ";
    assert r == [r[0], r[1], r[2]];
  }

  /** The middle line always starts with the city as given and keeps its
      comma, whatever else is missing. */
  lemma CityLeadsMiddleLine(e: EmployeeRecord)
    requires e.address.Some? && e.address.value.city.Some?
    ensures var line := AddressLines(e)[1]; var c := e.address.value.city.value;
      && |line| >= |c| + 2 && line[..|c|] == c && line[|c|..|c| + 2] == ", "
  {
    var line := AddressLines(e)[1];
    var c := e.address.value.city.value;
    var a := e.address.value;
    assert line == c + (", " + (Shown(a.state) + " " + Shown(a.zipCode)));
  }

  /** The "Add Salary" link: the salary form's path with the employee's id
      and full name as the query. */
  function AddSalaryAction(e: EmployeeRecord): (r: Action)
    ensures r.NavigateTo? && r.path == AddSalaryPath
    ensures QueryGet(r.query, "employeeId") == Some(e.id)
  {
    NavigateTo(AddSalaryPath,
      [("employeeId", e.id), ("employeeName", Interpolated(e.firstName) + " " + Interpolated(e.lastName))])
  }

  /** Following the link pre-selects this employee in the salary form,
      whatever else the form held. */
  lemma AddSalaryPreselectsEmployee(e: EmployeeRecord, f: AddSalary.SalaryForm)
    ensures AddSalary.Prefill(f, QueryGet(AddSalaryAction(e).query, "employeeId")).employee
              == AddSalary.Id(e.id)
  {
  }

  /** Edit opens the employee's edit page, whose route reads the id back. */
  function EditAction(e: EmployeeRecord): (r: Action)
    ensures r.NavigateTo? && r.query == []
    ensures e.id != "" && '/' !in e.id ==> PathParam(EditPrefix, r.path) == Some(e.id)
  {
    PathParamRoundTrip(EditPrefix, e.id);
    NavigateTo(EditPrefix + e.id, [])
  }

  /** The card's buttons in order, each with what pressing it does. */
  function Buttons(e: EmployeeRecord): (r: seq<(string, Action)>)
    ensures |r| == 3
    ensures r[0] == ("Add Salary", AddSalaryAction(e))
    ensures r[1] == ("Edit", EditAction(e))
    ensures r[2] == ("Delete", DeleteRecord(e.id))
  {
    [("Add Salary", AddSalaryAction(e)), ("Edit", EditAction(e)), ("Delete", DeleteRecord(e.id))]
  }
}
