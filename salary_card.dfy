/** The card that shows one salary record in the admin list. */
module SalaryCard {
  import opened JsText
  import opened Http

  /** The employee a salary record refers to, as the list returns it. */
  datatype EmployeeInfo = EmployeeInfo(
    firstName: Option<string>, lastName: Option<string>, position: Option<string>, email: Option<string>)

  datatype SalaryRecord = SalaryRecord(
    id: string, employee: Option<EmployeeInfo>, amount: Option<Value>, status: Option<string>)

  /** What pressing a button of the card does; "Mark as Paid" has no
      handler. */
  datatype Action = NavigateTo(path: string) | DeleteRecord(id: string) | NoAction

  const Green := "text-green-500"
  const Yellow := "text-yellow-500"
  const Red := "text-red-500"
  const Grey := "text-gray-400"
  const EditPrefix := "/admin/salaries/edit/"

  /** The colour class of a payment status: one colour per known status,
      grey for every other value and for a missing one. */
  function PaymentStatusColor(status: Option<string>): (r: string)
    ensures r == Green <==> status == Some("Paid")
    ensures r == Yellow <==> status == Some("Pending")
    ensures r == Red <==> status == Some("Overdue")
    ensures r == Grey <==> status !in {Some("Paid"), Some("Pending"), Some("Overdue")}
  {
    match status
    case Some("Paid") => Green
    case Some("Pending") => Yellow
    case Some("Overdue") => Red
    case _ => Grey
  }

  /** The amount shown: the record's when it is truthy, otherwise 0. */
  function DisplayedAmount(s: SalaryRecord): (r: Value)
    ensures ValueTruthy(s.amount) ==> r == s.amount.value
    ensures !ValueTruthy(s.amount) ==> r == Number(0)
  {
    OrValue(s.amount, Number(0))
  }

  /** The heading: the employee's first and last name with a space between,
      or a fixed text when there is no employee. */
  function Heading(s: SalaryRecord): (r: string)
    ensures s.employee.None? ==> r == "Unknown Employee"
    ensures s.employee.Some? && s.employee.value.firstName.Some? && s.employee.value.lastName.Some? ==>
              r == s.employee.value.firstName.value + " " + s.employee.value.lastName.value
    ensures s.employee.Some? ==>
              r == Interpolated(s.employee.value.firstName) + " " + Interpolated(s.employee.value.lastName)
  {
    match s.employee
    case None => "Unknown Employee"
    case Some(e) => Interpolated(e.firstName) + " " + Interpolated(e.lastName)
  }

  /** Position and email fall back to "N/A" when the employee or the field
      is missing or empty. */
  function PositionShown(s: SalaryRecord): (r: string)
    ensures s.employee.Some? && TextTruthy(s.employee.value.position) ==> r == s.employee.value.position.value
    ensures !(s.employee.Some? && TextTruthy(s.employee.value.position)) ==> r == "N/A"
    ensures r != ""
  {
    if s.employee.Some? then OrText(s.employee.value.position, "N/A") else "N/A"
  }

  function EmailShown(s: SalaryRecord): (r: string)
    ensures s.employee.Some? && TextTruthy(s.employee.value.email) ==> r == s.employee.value.email.value
    ensures !(s.employee.Some? && TextTruthy(s.employee.value.email)) ==> r == "N/A"
    ensures r != ""
  {
    if s.employee.Some? then OrText(s.employee.value.email, "N/A") else "N/A"
  }

  /** "Mark as Paid" is offered only for a pending payment. */
  predicate ShowsMarkAsPaid(s: SalaryRecord)
    ensures ShowsMarkAsPaid(s) ==> PaymentStatusColor(s.status) == Yellow
  {
    s.status == Some("Pending")
  }

  /** The button is offered exactly on the cards coloured yellow. */
  lemma MarkAsPaidOnYellowCards(s: SalaryRecord)
    ensures ShowsMarkAsPaid(s) <==> PaymentStatusColor(s.status) == Yellow
  {
  }

  /** The card's buttons in order, each with what pressing it does. */
  function Buttons(s: SalaryRecord): (r: seq<(string, Action)>)
    ensures |r| == 3 <==> ShowsMarkAsPaid(s)
    ensures 2 <= |r| <= 3
    ensures r[0].0 == "Edit" && r[0].1.NavigateTo?
    ensures s.id != "" && '/' !in s.id ==> PathParam(EditPrefix, r[0].1.path) == Some(s.id)
    ensures r[1] == ("Delete", DeleteRecord(s.id))
    ensures |r| == 3 ==> r[2] == ("Mark as Paid", NoAction)
  {
    PathParamRoundTrip(EditPrefix, s.id);
    [("Edit", NavigateTo(EditPrefix + s.id)), ("Delete", DeleteRecord(s.id))]
      + if ShowsMarkAsPaid(s) then [("Mark as Paid", NoAction)] else []
  }
}
