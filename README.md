# Hotel management front end — a verified model of its client-side logic

The hotel management front end is a React single-page application. Its
backend holds the data and the business rules; the components hold only
small pieces of decision and update logic. This project models that logic
in Dafny and proves properties of it:

- **Validators.** The login, sign-up and guest booking forms each check
  their fields and fill an error map with at most one message per field.
  The form is accepted exactly when that map is empty. The two regular
  expressions they use are written out as character-level predicates:
  - the unanchored email pattern `\S+@\S+\.\S+`;
  - the anchored phone pattern `^[0-9]{10}$`.
- **Admin editors.** The room, employee and salary editors do the
  following:
  - keep a form record and update one field at a time;
  - append trimmed amenities and image URLs, and remove them by index;
  - fill a loaded record's missing fields with defaults;
  - pre-fill the salary form's employee from the page's query;
  - send the save request, resetting the form after a successful add but
    not after an edit;
  - report request errors by status (a conflict, an expired session, or
    anything else).
- **Image carousel.** The room detail page's carousel cycles an index
  through the room's images.
- **Admin cards.** Each card maps a status to a colour class and falls
  back to defaults for missing display fields.
- **Dashboard gate.** The dashboard lets a visitor in or sends them home,
  depending on the stored token and role.

Layout, one module per component plus three shared ones:

| file | module | models |
|---|---|---|
| js_text.dfy | JsText | optional values; JavaScript's whitespace set and `trim()`; falsy `x \|\| fallback` defaults; template interpolation of a missing value |
| patterns.dfy | Patterns | the email and phone regular expressions |
| http.dfy | Http | how a request ends; the shared catch block; effects on the browser; query and route lookups |
| login.dfy | AuthRules, Login | the email and password rules shared by login and sign-up; the login page |
| signup.dfy | SignUp | the sign-up page |
| booking.dfy | Booking | the guest booking form |
| add_room.dfy | AddRoom | the room editor |
| add_employee.dfy | AddEmployee | the employee editor |
| add_salary.dfy | AddSalary | the salary editor |
| room_detail.dfy | RoomDetail | the image carousel of the room detail page |
| salary_card.dfy, employee_card.dfy, room_card.dfy | SalaryCard, EmployeeCard, RoomCard | the admin cards |
| dashboard.dfy | Dashboard | the admin access gate |

Modelling conventions:

- **Components with state** become classes. Each `useState` is a field.
  Each handler is a method whose `modifies` clause names the fields it
  sets, and whose `ensures` states their new values.
- **Asynchronous handlers** are split at their `await`. The `Start…`
  method runs up to the request and returns the request it would send.
  The `Complete…` method takes how the request ended (`Http.Outcome` or
  `Http.Fetch`) and runs the rest.
- **Browser effects are returned as `Http.Effect` values.** These are
  navigation, removing the stored token, and the delayed return to a list
  page. The stored token and role are parameters: `None` is a missing
  entry, and an empty string is falsy like a missing one.
- **Number inputs** hold a `JsText.Value`, either text typed into the
  input or a number put there by a load. `0` and `""` are falsy. Fractions
  are not modelled.
- **Dates** in the booking form are day numbers, and `None` stands for an
  empty date input. The salary editor keeps dates as text. Formatting and
  conversion are function parameters: `toDay` for loading and `toIso` for
  saving.

## Model

| member | source | states |
|---|---|---|
| JsText.Trim | src/pages/booking/RoomBookingForm.jsx:22-24 | The result has no whitespace at either end and is never longer than the input. It is empty exactly when the input is entirely JavaScript whitespace. |
| JsText.TrimCutsBlanks | src/pages/admin/AddRoom.jsx:96-104 | The trimmed text is the contiguous piece of the input that follows its leading whitespace. Only whitespace comes before that piece, and only whitespace comes after it. |
| JsText.BlankTailShifts | src/pages/admin/AddRoom.jsx:96-104 | Keeping a prefix of a string's suffix keeps a contiguous piece of the string. Whitespace after that piece in the suffix is whitespace after it in the string. |
| Patterns.EmailShaped | src/pages/auth/Login.jsx:12-15 | A string that passes the executable email check has at least five characters and is not blank. |
| Patterns.PhoneMatches | src/pages/booking/RoomBookingForm.jsx:20 | A number that passes the phone pattern is not blank and has no whitespace to trim. |
| Patterns.DigitsSurviveTrim | src/pages/booking/RoomBookingForm.jsx:31-32 | A non-empty run of digits is not blank, and trimming leaves it unchanged. |
| Patterns.EmailShapedIffRegex | src/pages/auth/Login.jsx:12-15 | The executable email check holds on exactly the strings where some substring splits as a non-blank run, '@', a non-blank run, '.', and a non-blank run. That is the meaning of `\S+@\S+\.\S+`. |
| Patterns.EmailRegexUnanchored | src/pages/auth/Login.jsx:12 | The email pattern is unanchored: adding any text before or after a matching string keeps it matching. |
| Patterns.EmailNeedsAt | src/pages/auth/Login.jsx:12-15 | A string with no '@' fails the email pattern. |
| Patterns.PhoneAnchored | src/pages/booking/RoomBookingForm.jsx:20 | The phone pattern is anchored: adding any text, even one space, to a ten-digit number makes it fail. |
| AuthRules.EmailError | src/pages/auth/Login.jsx:14-15 | An empty email gives only "Email is required", and the format is not tested then. A non-empty email gives "Email is invalid" exactly when it fails the pattern. Otherwise there is no message. |
| AuthRules.PasswordError | src/pages/auth/Login.jsx:17-19 | An empty password gives "Password is required". A password of 1 to 5 characters gives the length message. Six or more characters are accepted. |
| AuthRules.Put | src/pages/auth/Login.jsx:14-19 | Assigning a key of the error object records the message under that key. Every other key keeps its message or its absence. |
| AuthRules.PutAllKeeps | src/pages/booking/RoomBookingForm.jsx:22-32 | A run of assignments leaves every key it does not name exactly as it was. |
| AuthRules.PutAllRecords | src/pages/booking/RoomBookingForm.jsx:22-32 | When the keys of a run of assignments are distinct and start out unset, each key ends up holding exactly its own message, so no later assignment overwrites an earlier one. |
| AuthRules.SurroundedEmailAccepted | src/pages/auth/Login.jsx:12-15 | Two concrete examples: " guest@hotel.com " and "contact: a@b.c!" get no email message. The fact for every string is Patterns.EmailRegexUnanchored. |
| AuthRules.DotlessEmailRejected | src/pages/auth/Login.jsx:12-15 | Every non-empty email in which no '.' follows an '@', such as "guest@hotel", gets "Email is invalid". |
| AuthRules.EmailNeedsDot | src/pages/auth/Login.jsx:12 | A string with no '.' fails the email check. |
| Login.LoginErrors | src/pages/auth/Login.jsx:10-22 | The error map has only the keys email and password. Each key holds its own rule's message. The map is empty exactly when the email is non-empty and matches and the password has at least 6 characters. |
| Login.FieldsIndependent | src/pages/auth/Login.jsx:14-19 | The email message depends only on the email, and the password message depends only on the password. |
| Login.LoginForm.constructor | src/pages/auth/Login.jsx:6-8 | Both fields start empty, with no errors. |
| Login.LoginForm.SetEmail | src/pages/auth/Login.jsx:61 | Typing in the email input sets the email and nothing else. |
| Login.LoginForm.SetPassword | src/pages/auth/Login.jsx:79 | Typing in the password input sets the password and nothing else. |
| Login.LoginForm.Validate | src/pages/auth/Login.jsx:10-23 | The method fills a fresh error map field by field and stores it. It returns true exactly when the map has no keys. |
| Login.LoginForm.HandleSubmit | src/pages/auth/Login.jsx:25-30 | The success branch runs exactly when validation passed. |
| SignUp.ConfirmError | src/pages/auth/SignUp.jsx:22-25 | An empty confirmation gives "Confirm Password is required". Otherwise, a confirmation that differs from the password gives "Passwords do not match". This check runs whether or not the password itself is valid. |
| SignUp.SignUpErrors | src/pages/auth/SignUp.jsx:11-28 | Each of the three keys holds its own rule's message. The map is empty exactly when the email matches, the password has at least 6 characters, and the confirmation equals the password. |
| SignUp.AgreesWithLogin | src/pages/auth/SignUp.jsx:13-20 | The email and password messages are the ones the login page gives. |
| SignUp.ShortMatchingPassword | src/pages/auth/SignUp.jsx:18-25 | The password "abc" confirmed as "abc" gets only the length message. |
| SignUp.SignUpForm.constructor | src/pages/auth/SignUp.jsx:6-9 | All three fields start empty, with no errors. |
| SignUp.SignUpForm.SetEmail | src/pages/auth/SignUp.jsx:61 | Sets the email and nothing else. |
| SignUp.SignUpForm.SetPassword | src/pages/auth/SignUp.jsx:76 | Sets the password and nothing else. |
| SignUp.SignUpForm.SetConfirmPassword | src/pages/auth/SignUp.jsx:93 | Sets the confirmation and nothing else. |
| SignUp.SignUpForm.Validate | src/pages/auth/SignUp.jsx:11-29 | The method fills a fresh error map and stores it. It returns true exactly when the map has no keys. |
| SignUp.SignUpForm.HandleSubmit | src/pages/auth/SignUp.jsx:31-37 | The success branch runs exactly when validation passed. |
| Booking.RequiredText | src/pages/booking/RoomBookingForm.jsx:22-24 | A name or room type is refused exactly when it is empty or only whitespace. |
| Booking.GuestsError | src/pages/booking/RoomBookingForm.jsx:25 | A guest count that is missing or not positive gets the guest-count message. |
| Booking.FromError | src/pages/booking/RoomBookingForm.jsx:26 | A missing check-in date gets "Check-in Date is required". |
| Booking.ToError | src/pages/booking/RoomBookingForm.jsx:27-28 | A missing check-out date is "required". If both dates are present and check-in is not strictly before check-out, the message is "must be after". |
| Booking.BookingEmailError | src/pages/booking/RoomBookingForm.jsx:29-30 | A blank email is "required". Otherwise the untrimmed text is tested against the email pattern, and the field passes exactly when the pattern matches. |
| Booking.BlankMatchesNothing | src/pages/booking/RoomBookingForm.jsx:29-32 | Whitespace-only text matches neither pattern, so the "required" check never hides a match. |
| Booking.ContactError | src/pages/booking/RoomBookingForm.jsx:31-32 | A blank number is "required". Otherwise it passes exactly when the whole untrimmed text is ten ASCII digits. |
| Booking.Message | src/pages/booking/RoomBookingForm.jsx:22-32 | The message the validator records under a key is always one of that field's own texts: a field never receives another field's message. |
| Booking.BookingErrorsRecords | src/pages/booking/RoomBookingForm.jsx:17-35 | Each of the eight keys of the error map `BookingErrors` holds exactly its own rule's message: a key is present exactly when its rule fails. |
| Booking.FillInOrderSteps | src/pages/booking/RoomBookingForm.jsx:22-32 | The handler's eight assignments, written out one by one, are the fold of Put over the eight (key, message) pairs in order. |
| Booking.FillInOrderRecords | src/pages/booking/RoomBookingForm.jsx:22-32 | Setting the eight keys one after another leaves each key holding the message given for it. |
| Booking.SameRecordsSameMap | src/pages/booking/RoomBookingForm.jsx:18-32 | Two error maps that hold the same messages under the eight keys are equal. |
| Booking.FilledInOrder | src/pages/booking/RoomBookingForm.jsx:18-33 | The handler's sequence of assignments builds exactly the error map described key by key: one message per failing field and nothing else. |
| Booking.Acceptable | src/pages/booking/RoomBookingForm.jsx:29-32 | An accepted form never has a blank email or a blank contact number, even though only the format is checked once the text is not blank. |
| Booking.NoErrorsIffAcceptable | src/pages/booking/RoomBookingForm.jsx:34-35 | The error map is empty exactly when every field passes its rule: names and room type not blank, a positive guest count, check-in strictly before check-out, a matching email, and a ten-digit number. |
| Booking.SameDayRefused | src/pages/booking/RoomBookingForm.jsx:28 | Equal check-in and check-out dates get "must be after". |
| Booking.PayloadOf | src/pages/booking/RoomBookingForm.jsx:46-55 | The request body carries the guest count as a positive number and every other field as typed, with check-in before check-out. |
| Booking.BookingForm.constructor | src/pages/booking/RoomBookingForm.jsx:5-14 | All eight fields start empty, with no errors and no message. |
| Booking.BookingForm.Validate | src/pages/booking/RoomBookingForm.jsx:17-36 | The method assigns the eight keys in the handler's order and stores the resulting map, which is exactly the error map for the current fields. It leaves the fields unchanged and returns true exactly when the form is acceptable. |
| Booking.BookingForm.ClearForm | src/pages/booking/RoomBookingForm.jsx:69-77 | All eight fields become empty and the errors are cleared. The submission message is kept. |
| Booking.BookingForm.HandleSubmit | src/pages/booking/RoomBookingForm.jsx:39-89 | A request is sent exactly when the form is acceptable, and its body is PayloadOf of the fields. An invalid form keeps the fields and shows "Please correct the errors in the form.". A successful response clears all eight fields and the errors. A refusal keeps the fields and shows "Booking failed: " followed by the server's message or "Something went wrong.". A network failure keeps the fields and shows the network message. |
| Http.ServerMessageOr | src/pages/admin/AddRoom.jsx:200 | The server's message is shown when it is non-empty. Otherwise the fallback is shown. |
| Http.Caught | src/pages/admin/AddRoom.jsx:195-201 | A 401 shows the session-expired message, drops the token and goes home; this is the only case that leaves the page. Any other error shows the server's message or the fallback and stays. |
| Http.UnauthorizedIgnoresMessage | src/pages/admin/AddRoom.jsx:195-198 | A 401 ends the session the same way whatever message it carries. |
| Http.QueryGet | src/pages/admin/AddSalary.jsx:71-72 | The value returned is that of the first pair with the name, as `URLSearchParams.get` returns. None is returned exactly when no pair has the name. |
| Http.PathParam | src/pages/admin/AddSalary.jsx:10 | A route parameter read from a path, as `useParams` reads the id, is non-empty, and the path is the prefix followed by it. |
| Http.PathParamRoundTrip | src/pages/admin/AddEmployee.jsx:9 | An edit path built from a non-empty id without '/' gives that id back when the page reads its route parameter. |
| AddRoom.WithField | src/pages/admin/AddRoom.jsx:88-94 | The named input shows the new value. Every other input and both lists are unchanged. |
| AddRoom.KeepOthers | src/pages/admin/AddRoom.jsx:109 | Filtering out the index `i` removes exactly that element when it lies in the list and keeps the rest in order. Otherwise nothing changes. |
| AddRoom.RemoveAt | src/pages/admin/AddRoom.jsx:106-111 | Removing an in-range index shortens the list by one. The elements before it stay in place and the ones after it shift down by one. An out-of-range index changes nothing. |
| AddRoom.RemoveUndoesAppend | src/pages/admin/AddRoom.jsx:96-111 | Removing the element just appended restores the list. |
| AddRoom.FromLoaded | src/pages/admin/AddRoom.jsx:59-68 | Each field takes the loaded value when it is truthy and the initial form's value otherwise ('', 'Standard', 'Available'). A missing list becomes []. |
| AddRoom.EmptyRecordLoadsInitialForm | src/pages/admin/AddRoom.jsx:59-68 | A room with every field missing or falsy loads as the initial form. |
| AddRoom.AddRoomPage.constructor | src/pages/admin/AddRoom.jsx:11-30 | The page starts with the initial form, empty pending inputs, no errors, and loading. |
| AddRoom.AddRoomPage.StartLoad | src/pages/admin/AddRoom.jsx:33-86 | With no token the page goes home. In edit mode it clears the errors and starts the fetch. In add mode it stops loading. |
| AddRoom.AddRoomPage.CompleteLoad | src/pages/admin/AddRoom.jsx:57-80 | The form becomes FromLoaded of the record, or the error goes through the shared catch block. Loading stops in both cases. |
| AddRoom.AddRoomPage.HandleChange | src/pages/admin/AddRoom.jsx:88-94 | The form becomes WithField of the old form. |
| AddRoom.AddRoomPage.SetCurrentAmenity | src/pages/admin/AddRoom.jsx:354 | Sets the pending amenity and nothing else. |
| AddRoom.AddRoomPage.SetCurrentImage | src/pages/admin/AddRoom.jsx:392 | Sets the pending image URL and nothing else. |
| AddRoom.AddRoomPage.HandleAddAmenity | src/pages/admin/AddRoom.jsx:96-104 | A pending amenity that is not blank is appended trimmed and the input is cleared. A blank one changes nothing, and the input is not cleared either. |
| AddRoom.AddRoomPage.HandleRemoveAmenity | src/pages/admin/AddRoom.jsx:106-111 | Removes by index from the amenities. The rest of the form is unchanged. |
| AddRoom.AddRoomPage.HandleAddImage | src/pages/admin/AddRoom.jsx:113-121 | Follows the same rule as for amenities, on the image URLs. |
| AddRoom.AddRoomPage.HandleRemoveImage | src/pages/admin/AddRoom.jsx:123-128 | Removes by index from the image URLs. The rest of the form is unchanged. |
| AddRoom.AddRoomPage.StartSubmit | src/pages/admin/AddRoom.jsx:131-171 | With no token it reports "Authentication token not found" and goes home. Otherwise it sends the form, with the room id attached in edit mode, and the save button is disabled. |
| AddRoom.AddRoomPage.SubmitDisabled | src/pages/admin/AddRoom.jsx:441 | The save button is disabled while a request is in flight. In add mode that is the only reason. With no request in flight and no room loading it is enabled. |
| AddRoom.AddRoomPage.CompleteSubmit | src/pages/admin/AddRoom.jsx:173-204 | A 200 or 201 reports success and returns to the list later. In add mode only, the form and both pending inputs are reset. Errors go through the shared catch block. Submitting ends in every case. |
| AddEmployee.WithField | src/pages/admin/AddEmployee.jsx:93-99 | Sets exactly one top-level field. The others and the address are unchanged. |
| AddEmployee.WithAddressField | src/pages/admin/AddEmployee.jsx:101-110 | Sets exactly one address field. The other four and every top-level field are unchanged. |
| AddEmployee.AddressFromLoaded | src/pages/admin/AddEmployee.jsx:66-72 | A missing address loads as five empty fields. Otherwise each field is the loaded one when truthy, or empty. |
| AddEmployee.FromLoaded | src/pages/admin/AddEmployee.jsx:59-73 | Each field takes the loaded value when it is truthy and the initial form's value otherwise (position 'Receptionist'). The address is AddressFromLoaded of the loaded address. |
| AddEmployee.EmptyRecordLoadsInitialForm | src/pages/admin/AddEmployee.jsx:59-73 | An employee with nothing filled in loads as the initial form, with or without an address object. |
| AddEmployee.CaughtSave | src/pages/admin/AddEmployee.jsx:178-186 | A 409 is tested first and shows the server's message or the duplicate-phone text. Every other error is handled as the shared catch block does. Only a 401 leaves the page. |
| AddEmployee.ConflictWithoutMessage | src/pages/admin/AddEmployee.jsx:178-179 | A conflict without a message is reported as a duplicate phone number, not as the general failure. |
| AddEmployee.AddEmployeePage.constructor | src/pages/admin/AddEmployee.jsx:11-31 | The page starts with the initial form, no errors, and loading. |
| AddEmployee.AddEmployeePage.StartLoad | src/pages/admin/AddEmployee.jsx:35-91 | With no token the page goes home. In edit mode it clears the errors and starts the fetch. In add mode it stops loading. |
| AddEmployee.AddEmployeePage.CompleteLoad | src/pages/admin/AddEmployee.jsx:57-85 | The form becomes FromLoaded of the record, or the error goes through the shared catch block. Loading stops in both cases. |
| AddEmployee.AddEmployeePage.HandleChange | src/pages/admin/AddEmployee.jsx:93-99 | The form becomes WithField of the old form. |
| AddEmployee.AddEmployeePage.HandleAddressChange | src/pages/admin/AddEmployee.jsx:101-110 | The form becomes WithAddressField of the old form. |
| AddEmployee.AddEmployeePage.StartSubmit | src/pages/admin/AddEmployee.jsx:112-151 | With no token it reports and goes home. Otherwise it sends the form, with `_id` equal to the route id in edit mode. The save button is disabled exactly when a request is in flight. |
| AddEmployee.AddEmployeePage.SubmitDisabled | src/pages/admin/AddEmployee.jsx:417 | The save button is disabled exactly when a request is in flight. Loading the employee does not disable it. |
| AddEmployee.AddEmployeePage.CompleteSubmit | src/pages/admin/AddEmployee.jsx:153-189 | A 200 or 201 reports success. The form resets only after an add. Errors go through CaughtSave. The save button is enabled again. |
| AddSalary.WithField | src/pages/admin/AddSalary.jsx:118-124 | Sets exactly one named field. The dropdown's value becomes an employee id. |
| AddSalary.EmployeeFromLoaded | src/pages/admin/AddSalary.jsx:88 | An embedded employee with a truthy `_id` gives that id. A plain id is kept, even an empty one. An embedded employee without an id stays an object, and a missing employee stays missing. |
| AddSalary.FromLoaded | src/pages/admin/AddSalary.jsx:86-94 | Dates that are present are formatted, and missing ones become ''. The status defaults to 'Paid', the notes to '' and the amount to ''. |
| AddSalary.DateField | src/pages/admin/AddSalary.jsx:145-146 | An empty date is left out of the body. A set one is converted to a timestamp. |
| AddSalary.PayloadOf | src/pages/admin/AddSalary.jsx:141-147 | The body keeps the employee, amount, status and notes. Each date is converted, or left out when it is empty. |
| AddSalary.InitialFormSendsNoDates | src/pages/admin/AddSalary.jsx:13-20 | The initial form's body carries no dates. |
| AddSalary.Prefill | src/pages/admin/AddSalary.jsx:109-114 | In add mode the employee becomes the query's `employeeId`, or '' when it is absent. Every other field is unchanged. |
| AddSalary.AddSalaryPage.constructor | src/pages/admin/AddSalary.jsx:13-29 | The page starts with the initial form, no errors, an empty employee list, and both loads pending. |
| AddSalary.AddSalaryPage.StartEmployeesLoad | src/pages/admin/AddSalary.jsx:33-45 | With no token it reports and goes home. Otherwise it starts fetching the employee list. |
| AddSalary.AddSalaryPage.CompleteEmployeesLoad | src/pages/admin/AddSalary.jsx:46-56 | The list is stored, or a single fixed message is shown for every error, including a 401. Loading stops in both cases. |
| AddSalary.AddSalaryPage.StartSalaryLoad | src/pages/admin/AddSalary.jsx:62-116 | With no token the page goes home. In edit mode it starts the fetch. In add mode the employee becomes the first `employeeId` value of the page's query, through Prefill, and loading stops. |
| AddSalary.AddSalaryPage.CompleteSalaryLoad | src/pages/admin/AddSalary.jsx:86-106 | The form becomes FromLoaded of the record, or the error goes through the shared catch block. Loading stops in both cases. |
| AddSalary.AddSalaryPage.HandleChange | src/pages/admin/AddSalary.jsx:118-124 | The form becomes WithField of the old form. |
| AddSalary.AddSalaryPage.StartSubmit | src/pages/admin/AddSalary.jsx:126-167 | With no token it reports and goes home. Otherwise it sends PayloadOf of the form, with the id in edit mode, and the save button is disabled. |
| AddSalary.AddSalaryPage.SubmitDisabled | src/pages/admin/AddSalary.jsx:373 | The save button is disabled while a request is in flight or the employee list is loading. In add mode those are the only reasons. With nothing loading and no request in flight it is enabled. |
| AddSalary.AddSalaryPage.SelectorDisabled | src/pages/admin/AddSalary.jsx:257 | The employee selector is locked exactly when the page edits an existing salary, that is, when the route id is non-empty. |
| AddSalary.AddSalaryPage.CompleteSubmit | src/pages/admin/AddSalary.jsx:169-197 | A 200 or 201 reports success. The form resets only after an add. Errors go through the shared catch block. |
| RoomDetail.JsRem | src/pages/room/RoomDetailScreen.jsx:57 | JavaScript's `%` agrees with the mathematical remainder on non-negative dividends, and its result has a magnitude less than the divisor. |
| RoomDetail.NextIndex | src/pages/room/RoomDetailScreen.jsx:55-59 | From a non-negative index the result lies in [0, n). It is one further along, and 0 after the last image. |
| RoomDetail.PrevIndex | src/pages/room/RoomDetailScreen.jsx:61-65 | From a non-negative index the result lies in [0, n). It is one back, and the last image from 0. |
| RoomDetail.PrevNextInverse | src/pages/room/RoomDetailScreen.jsx:55-65 | "Previous" undoes "next" and "next" undoes "previous" on every index in range. |
| RoomDetail.AdvanceForward | src/pages/room/RoomDetailScreen.jsx:57 | Before the end of the list, each "next" moves one place forward. |
| RoomDetail.AdvanceSplits | src/pages/room/RoomDetailScreen.jsx:57 | a + b presses of "next" are a presses followed by b presses. |
| RoomDetail.FullCycle | src/pages/room/RoomDetailScreen.jsx:57 | Pressing "next" as many times as there are images returns to the starting index. |
| RoomDetail.ShowsArrows | src/pages/room/RoomDetailScreen.jsx:106 | The arrows are drawn only for a room with at least two images, so the handlers' guard holds. |
| RoomDetail.ArrowsMove | src/pages/room/RoomDetailScreen.jsx:106 | The arrows are drawn only when the handlers' guard holds, and then each press changes the index. |
| RoomDetail.RoomDetailScreen.constructor | src/pages/room/RoomDetailScreen.jsx:8-11 | There is no room yet and the index is 0. |
| RoomDetail.RoomDetailScreen.ShowRoom | src/pages/room/RoomDetailScreen.jsx:41 | The loaded room is stored and the index is kept. |
| RoomDetail.RoomDetailScreen.GoToNextImage | src/pages/room/RoomDetailScreen.jsx:55-59 | With a room that has images, the index becomes NextIndex and stays in range. Otherwise it is unchanged. The index is never negative. |
| RoomDetail.RoomDetailScreen.GoToPrevImage | src/pages/room/RoomDetailScreen.jsx:61-65 | With a room that has images, the index becomes PrevIndex and stays in range. Otherwise it is unchanged. The index is never negative. |
| SalaryCard.PaymentStatusColor | src/components/admin/SalaryCard.jsx:9-20 | 'Paid', 'Pending' and 'Overdue' get green, yellow and red, and each colour belongs to exactly one of them. Every other or missing status is grey. |
| SalaryCard.DisplayedAmount | src/components/admin/SalaryCard.jsx:22 | A missing or falsy amount shows as 0. |
| JsText.Interpolated | src/components/admin/SalaryCard.jsx:27 | A missing value placed in a template literal reads "undefined". A present one reads as its text. |
| SalaryCard.Heading | src/components/admin/SalaryCard.jsx:27 | The heading is "first last", or "Unknown Employee" when there is no employee. With an employee, each name is interpolated, so a missing one reads "undefined", as in "Ann undefined". |
| SalaryCard.PositionShown | src/components/admin/SalaryCard.jsx:30 | When there is an employee with a non-empty position, that position is shown. In every other case, no employee or a missing or empty position, 'N/A' is shown. The text is never empty. |
| SalaryCard.EmailShown | src/components/admin/SalaryCard.jsx:33 | When there is an employee with a non-empty email, that email is shown. In every other case 'N/A' is shown. The text is never empty. |
| SalaryCard.ShowsMarkAsPaid | src/components/admin/SalaryCard.jsx:72-76 | "Mark as Paid" is offered only on a yellow card. |
| SalaryCard.MarkAsPaidOnYellowCards | src/components/admin/SalaryCard.jsx:72-76 | "Mark as Paid" is offered exactly on pending records, which are the yellow ones. |
| SalaryCard.Buttons | src/components/admin/SalaryCard.jsx:59-77 | Edit opens the edit path. The salary editor, on the route it is assumed to be mounted on, reads back this record's id. Delete passes this record's id. "Mark as Paid" is a third button that does nothing, present exactly for 'Pending'. |
| EmployeeCard.StatusColor | src/components/admin/EmployeeCard.jsx:9-20 | 'Active' gets green, 'Inactive' red and 'On Leave' yellow, and each colour belongs to exactly one of them. Every other or missing status is grey. |
| EmployeeCard.DisplayedSalary | src/components/admin/EmployeeCard.jsx:22 | A missing or falsy salary shows as 0. |
| EmployeeCard.Shown | src/components/admin/EmployeeCard.jsx:52-54 | A missing field placed in JSX shows nothing. A present one shows its text. |
| EmployeeCard.AddressLines | src/components/admin/EmployeeCard.jsx:49-56 | The address block is drawn, as three lines, exactly when there is an address. The lines are the street; the city, ", ", the state, " " and the zip code; and the country. A missing part shows nothing, and the separators stay. |
| EmployeeCard.CityOnlyAddress | src/components/admin/EmployeeCard.jsx:52-54 | An address holding only the city "Pune" shows an empty first line, "Pune,  " and an empty last line. |
| EmployeeCard.CityLeadsMiddleLine | src/components/admin/EmployeeCard.jsx:53 | When there is a city, the middle line starts with it, followed by ", ". |
| EmployeeCard.AddSalaryAction | src/components/admin/EmployeeCard.jsx:61 | The link goes to the salary form, with `employeeId` equal to this employee's id. |
| EmployeeCard.AddSalaryPreselectsEmployee | src/components/admin/EmployeeCard.jsx:61 | Following the link pre-selects exactly this employee in the salary form. |
| EmployeeCard.EditAction | src/components/admin/EmployeeCard.jsx:67 | Edit opens the edit path. The employee editor, on the route it is assumed to be mounted on, reads back this employee's id. |
| EmployeeCard.Buttons | src/components/admin/EmployeeCard.jsx:59-78 | There are three buttons in order: Add Salary, Edit, and Delete. Delete passes this employee's id. |
| RoomCard.StatusColor | src/components/admin/RoomCard.jsx:5-16 | 'Available' gets green, 'Booked' red and 'Maintenance' yellow, and each colour belongs to exactly one of them. Every other or missing status is grey. |
| RoomCard.CoverImage | src/components/admin/RoomCard.jsx:17-21 | The cover is the first image when there is one, and the placeholder otherwise. |
| RoomCard.AmenityChips | src/components/admin/RoomCard.jsx:45-56 | There is one chip per amenity, in order. There are none, and no section is drawn, when the list is missing or empty. |
| RoomCard.FirstAddedImageIsCover | src/components/admin/RoomCard.jsx:21 | The first image in a room's list is its cover, whatever follows it. |
| Dashboard.Navigations | src/pages/admin/Dashboard.jsx:9-29 | There is at most one navigation. It goes home exactly when the token is missing or the role is exactly "user". |
| Dashboard.TokenCheckedFirst | src/pages/admin/Dashboard.jsx:14-18 | Without a token the outcome does not depend on the role. |
| Dashboard.AdminStays | src/pages/admin/Dashboard.jsx:22-28 | With a token, a missing role, "admin" and "User" all stay on the page. |

## Left out

- Requests are not modelled. Every `axios` and `fetch` call is replaced by the request the handler would send, and its result is a parameter of the completing method. The request URLs and headers are not modelled.
- A saving request that resolves with a 2xx status other than 200 or 201 is modelled: it ends submitting and does nothing else. Axios itself throws for non-2xx statuses. That is assumed, not modelled.
- An error response with no body is not modelled. The 409 branch of the employee editor reads the body's message without optional chaining, so it would throw on such a response.
- Storage, navigation and timers are only requested, never performed: reading and removing the stored token, `navigate`, and the two-second delayed return to a list are the `Http.Effect` values a handler returns. Logging to the console is left out.
- Number parsing is not modelled. `parseFloat` of price, salary and amount, and `parseInt` of capacity and the guest count, are not modelled: the bodies carry the form's values as they are. The booking form's guest count is taken as already read as an integer. The input declares `min="1"` but no `step`, and the default step of 1 is assumed to keep it whole: fractional guest counts are not modelled. Amounts formatted with `toLocaleString` are not modelled.
- Dates are day numbers in the booking form. In the salary editor, parsing and formatting a date are the function parameters `toDay` and `toIso`. A date library that throws on malformed text is not modelled.
- The password length is counted in characters. JavaScript counts UTF-16 code units, so the two differ for characters outside the Basic Multilingual Plane.
- URL encoding of the add-salary link's query is not modelled. `Http.QueryGet` reads the decoded pairs, and the link's id is assumed to need no escaping.
- The room detail page's own load is left out: its token check, fetch, error messages and loading flag. Only the arrival of a room is modelled, by `ShowRoom`. The index is not reset when a room arrives, so after a change of room it can point past the new room's images until the next press brings it back into range.
- The loading and error screens are left out. That includes the editors' "loading" and "error" screens and the "employee cannot be changed" note.
- The booking form's eight input setters are left out: each assigns one field of the form.
- The `isLoggedIn` flag of the room editor is modelled, but nothing reads it.
- The route table is assumed, not modelled. The cards link to `/admin/employees/edit/:id` and `/admin/salaries/edit/:id`, but src/App.jsx:16-23 declares only the six public routes. The model assumes each editor is mounted on its edit path and reads the id there.
- The list pages, the static pages, routing and the navigation bar are not part of this model. They hold only fetching, rendering and logout.
- Card images that fail to load and switch to the placeholder are not modelled.
