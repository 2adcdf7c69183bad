/** The guest booking form: eight input fields, a validator that fills an
    error map, and a submit handler that posts the booking and either resets
    the form or keeps it. */
module Booking {
  import opened JsText
  import opened Patterns
  import AuthRules

  /** The eight inputs. The guest count is the number input already read as
      an integer (None when empty); check-in and check-out are day numbers
      (None when no date is picked). */
  datatype Fields = Fields(
    fname: string, lname: string, roomtype: string, noofguests: Option<int>,
    from: Option<int>, to: Option<int>, email: string, contactno: string)

  /** The keys `validate` may set on its error object, one per input. */
  datatype Key = FName | LName | RoomType | NoOfGuests | From | To | Email | ContactNo

  const EmptyFields := Fields("", "", "", None, None, None, "", "")

  const FirstNameRequired := "First Name is required"
  const LastNameRequired := "Last Name is required"
  const RoomTypeRequired := "Room Type is required"
  const GuestsInvalid := "Number of Guests must be a positive number"
  const CheckInRequired := "Check-in Date is required"
  const CheckOutRequired := "Check-out Date is required"
  const CheckOutNotAfter := "Check-out Date must be after Check-in Date"
  const EmailRequired := "Email is required"
  const EmailInvalid := "Email is invalid"
  const ContactRequired := "Contact Number is required"
  const ContactInvalid := "Contact Number must be 10 digits"

  const CorrectErrors := "Please correct the errors in the form."
  const BookingSucceeded := "Booking successful! Your request has been sent."
  const BookingFailedPrefix := "Booking failed: "
  const BookingFailedFallback := "Something went wrong."
  const NetworkFailure := "Network error or server is unreachable. Please try again later."

  /** A text field that is required after trimming. */
  function RequiredText(value: string, message: string): (r: Option<string>)
    ensures r == None <==> !IsBlank(value)
    ensures r != None ==> r == Some(message)
  {
    if Trim(value) == "" then Some(message) else None
  }

  function GuestsError(noofguests: Option<int>): (r: Option<string>)
    ensures r == None <==> noofguests.Some? && noofguests.value > 0
    ensures r != None ==> r == Some(GuestsInvalid)
  {
    if noofguests.None? || noofguests.value <= 0 then Some(GuestsInvalid) else None
  }

  function FromError(from: Option<int>): (r: Option<string>)
    ensures r == None <==> from.Some?
    ensures r != None ==> r == Some(CheckInRequired)
  {
    if from.None? then Some(CheckInRequired) else None
  }

  /** The check-out message: "required" when missing, otherwise "must be
      after" unless check-in is missing or strictly earlier. */
  function ToError(from: Option<int>, to: Option<int>): (r: Option<string>)
    ensures r == None <==> to.Some? && (from.Some? ==> from.value < to.value)
    ensures to.None? ==> r == Some(CheckOutRequired)
    ensures to.Some? && r != None ==> r == Some(CheckOutNotAfter)
  {
    if to.None? then Some(CheckOutRequired)
    else if from.Some? && from.value >= to.value then Some(CheckOutNotAfter)
    else None
  }

  /** The email is required after trimming, but the pattern is tested on the
      untrimmed text. */
  function BookingEmailError(email: string): (r: Option<string>)
    ensures r == None <==> EmailRegexMatches(email)
    ensures IsBlank(email) ==> r == Some(EmailRequired)
    ensures !IsBlank(email) && r != None ==> r == Some(EmailInvalid)
  {
    EmailShapedIffRegex(email);
    BlankMatchesNothing(email);
    if Trim(email) == "" then Some(EmailRequired)
    else if !EmailShaped(email) then Some(EmailInvalid)
    else None
  }

  /** Blank text matches neither pattern. */
  lemma BlankMatchesNothing(s: string)
    ensures IsBlank(s) ==> !EmailShaped(s) && !PhoneMatches(s)
  {
    if IsBlank(s) && |s| > 0 {
      assert IsSpace(s[0]) && !IsDigit(s[0]);
    }
  }

  /** The contact number is required after trimming; otherwise the whole
      untrimmed text must be exactly ten digits. */
  function ContactError(contactno: string): (r: Option<string>)
    ensures r == None <==> PhoneMatches(contactno)
    ensures IsBlank(contactno) ==> r == Some(ContactRequired)
    ensures !IsBlank(contactno) && r != None ==> r == Some(ContactInvalid)
  {
    BlankMatchesNothing(contactno);
    if Trim(contactno) == "" then Some(ContactRequired)
    else if !PhoneMatches(contactno) then Some(ContactInvalid)
    else None
  }

  /** The texts the validator may record under `key`: each field has its own. */
  function KeyTexts(key: Key): set<string>
  {
    match key
    case FName => {FirstNameRequired}
    case LName => {LastNameRequired}
    case RoomType => {RoomTypeRequired}
    case NoOfGuests => {GuestsInvalid}
    case From => {CheckInRequired}
    case To => {CheckOutRequired, CheckOutNotAfter}
    case Email => {EmailRequired, EmailInvalid}
    case ContactNo => {ContactRequired, ContactInvalid}
  }

  /** The message the validator records under `key`, if any: always one of
      that field's own texts. */
  function Message(b: Fields, key: Key): (r: Option<string>)
    ensures r.Some? ==> r.value in KeyTexts(key)
  {
    match key
    case FName => RequiredText(b.fname, FirstNameRequired)
    case LName => RequiredText(b.lname, LastNameRequired)
    case RoomType => RequiredText(b.roomtype, RoomTypeRequired)
    case NoOfGuests => GuestsError(b.noofguests)
    case From => FromError(b.from)
    case To => ToError(b.from, b.to)
    case Email => BookingEmailError(b.email)
    case ContactNo => ContactError(b.contactno)
  }

  const AllKeys: set<Key> := {FName, LName, RoomType, NoOfGuests, From, To, Email, ContactNo}

  /** The error map `validate` is meant to build: one message for each field
      that fails its rule, and nothing else. */
  function BookingErrors(b: Fields): map<Key, string>
  {
    map k | k in AllKeys && Message(b, k).Some? :: Message(b, k).value
  }

  /** Each key of the error map holds exactly its own rule's message. */
  lemma BookingErrorsRecords(b: Fields)
    ensures var m := BookingErrors(b);
      && AuthRules.Records(m, FName, RequiredText(b.fname, FirstNameRequired))
      && AuthRules.Records(m, LName, RequiredText(b.lname, LastNameRequired))
      && AuthRules.Records(m, RoomType, RequiredText(b.roomtype, RoomTypeRequired))
      && AuthRules.Records(m, NoOfGuests, GuestsError(b.noofguests))
      && AuthRules.Records(m, From, FromError(b.from))
      && AuthRules.Records(m, To, ToError(b.from, b.to))
      && AuthRules.Records(m, Email, BookingEmailError(b.email))
      && AuthRules.Records(m, ContactNo, ContactError(b.contactno))
  {
    assert Message(b, FName) == RequiredText(b.fname, FirstNameRequired);
    assert Message(b, LName) == RequiredText(b.lname, LastNameRequired);
    assert Message(b, RoomType) == RequiredText(b.roomtype, RoomTypeRequired);
    assert Message(b, NoOfGuests) == GuestsError(b.noofguests);
    assert Message(b, From) == FromError(b.from);
    assert Message(b, To) == ToError(b.from, b.to);
    assert Message(b, Email) == BookingEmailError(b.email);
    assert Message(b, ContactNo) == ContactError(b.contactno);
  }

  /** The handler's eight assignments, in its order. */
  function Entries(
    fname: Option<string>, lname: Option<string>, roomtype: Option<string>, noofguests: Option<string>,
    from: Option<string>, to: Option<string>, email: Option<string>, contactno: Option<string>): seq<(Key, Option<string>)>
  {
    [(FName, fname), (LName, lname), (RoomType, roomtype), (NoOfGuests, noofguests),
     (From, from), (To, to), (Email, email), (ContactNo, contactno)]
  }

  /** Setting the eight keys one after another, in the handler's order,
      each only when its rule gave a message. */
  function FillInOrder(
    fname: Option<string>, lname: Option<string>, roomtype: Option<string>, noofguests: Option<string>,
    from: Option<string>, to: Option<string>, email: Option<string>, contactno: Option<string>): map<Key, string>
  {
    var m := AuthRules.Put(map[], FName, fname);
    var m := AuthRules.Put(m, LName, lname);
    var m := AuthRules.Put(m, RoomType, roomtype);
    var m := AuthRules.Put(m, NoOfGuests, noofguests);
    var m := AuthRules.Put(m, From, from);
    var m := AuthRules.Put(m, To, to);
    var m := AuthRules.Put(m, Email, email);
    AuthRules.Put(m, ContactNo, contactno)
  }

  /** The handler's eight assignments are the fold of its entries. */
  lemma FillInOrderSteps(
    e1: Option<string>, e2: Option<string>, e3: Option<string>, e4: Option<string>,
    e5: Option<string>, e6: Option<string>, e7: Option<string>, e8: Option<string>)
    ensures FillInOrder(e1, e2, e3, e4, e5, e6, e7, e8) ==
      AuthRules.PutAll(map[], Entries(e1, e2, e3, e4, e5, e6, e7, e8))
  {
    var es := Entries(e1, e2, e3, e4, e5, e6, e7, e8);
    var m1 := AuthRules.Put(map[], FName, e1);
    var m2 := AuthRules.Put(m1, LName, e2);
    var m3 := AuthRules.Put(m2, RoomType, e3);
    var m4 := AuthRules.Put(m3, NoOfGuests, e4);
    var m5 := AuthRules.Put(m4, From, e5);
    var m6 := AuthRules.Put(m5, To, e6);
    var m7 := AuthRules.Put(m6, Email, e7);
    var m8 := AuthRules.Put(m7, ContactNo, e8);
    assert AuthRules.PutAll(map[], es) == AuthRules.PutAll(m1, es[1..]);
    assert AuthRules.PutAll(m1, es[1..]) == AuthRules.PutAll(m2, es[2..]);
    assert AuthRules.PutAll(m2, es[2..]) == AuthRules.PutAll(m3, es[3..]);
    assert AuthRules.PutAll(m3, es[3..]) == AuthRules.PutAll(m4, es[4..]);
    assert AuthRules.PutAll(m4, es[4..]) == AuthRules.PutAll(m5, es[5..]);
    assert AuthRules.PutAll(m5, es[5..]) == AuthRules.PutAll(m6, es[6..]);
    assert AuthRules.PutAll(m6, es[6..]) == AuthRules.PutAll(m7, es[7..]);
    assert AuthRules.PutAll(m7, es[7..]) == AuthRules.PutAll(m8, es[8..]);
    assert es[8..] == [];
  }

  lemma {:induction false} FillInOrderRecords(
    fname: Option<string>, lname: Option<string>, roomtype: Option<string>, noofguests: Option<string>,
    from: Option<string>, to: Option<string>, email: Option<string>, contactno: Option<string>)
    ensures var m := FillInOrder(fname, lname, roomtype, noofguests, from, to, email, contactno);
      && AuthRules.Records(m, FName, fname) && AuthRules.Records(m, LName, lname)
      && AuthRules.Records(m, RoomType, roomtype) && AuthRules.Records(m, NoOfGuests, noofguests)
      && AuthRules.Records(m, From, from) && AuthRules.Records(m, To, to)
      && AuthRules.Records(m, Email, email) && AuthRules.Records(m, ContactNo, contactno)
  {
    var es := Entries(fname, lname, roomtype, noofguests, from, to, email, contactno);
    FillInOrderSteps(fname, lname, roomtype, noofguests, from, to, email, contactno);
    assert AuthRules.DistinctKeys(es);
    AuthRules.PutAllRecords(map[], es, 0);
    AuthRules.PutAllRecords(map[], es, 1);
    AuthRules.PutAllRecords(map[], es, 2);
    AuthRules.PutAllRecords(map[], es, 3);
    AuthRules.PutAllRecords(map[], es, 4);
    AuthRules.PutAllRecords(map[], es, 5);
    AuthRules.PutAllRecords(map[], es, 6);
    AuthRules.PutAllRecords(map[], es, 7);
  }

  /** Two error maps that record the same eight messages are equal. */
  lemma SameRecordsSameMap(
    m: map<Key, string>, m': map<Key, string>,
    fname: Option<string>, lname: Option<string>, roomtype: Option<string>, noofguests: Option<string>,
    from: Option<string>, to: Option<string>, email: Option<string>, contactno: Option<string>)
    requires AuthRules.Records(m, FName, fname) && AuthRules.Records(m', FName, fname)
    requires AuthRules.Records(m, LName, lname) && AuthRules.Records(m', LName, lname)
    requires AuthRules.Records(m, RoomType, roomtype) && AuthRules.Records(m', RoomType, roomtype)
    requires AuthRules.Records(m, NoOfGuests, noofguests) && AuthRules.Records(m', NoOfGuests, noofguests)
    requires AuthRules.Records(m, From, from) && AuthRules.Records(m', From, from)
    requires AuthRules.Records(m, To, to) && AuthRules.Records(m', To, to)
    requires AuthRules.Records(m, Email, email) && AuthRules.Records(m', Email, email)
    requires AuthRules.Records(m, ContactNo, contactno) && AuthRules.Records(m', ContactNo, contactno)
    ensures m == m'
  {
    forall k ensures (k in m <==> k in m') && (k in m ==> m[k] == m'[k]) {
      match k
      case FName => case LName => case RoomType => case NoOfGuests =>
      case From => case To => case Email => case ContactNo =>
    }
  }

  /** The handler's eight assignments build exactly the error map. */
  lemma FilledInOrder(b: Fields)
    ensures BookingErrors(b) == FillInOrder(
      RequiredText(b.fname, FirstNameRequired), RequiredText(b.lname, LastNameRequired),
      RequiredText(b.roomtype, RoomTypeRequired), GuestsError(b.noofguests), FromError(b.from),
      ToError(b.from, b.to), BookingEmailError(b.email), ContactError(b.contactno))
  {
    var e1, e2, e3 := RequiredText(b.fname, FirstNameRequired), RequiredText(b.lname, LastNameRequired),
      RequiredText(b.roomtype, RoomTypeRequired);
    var e4, e5, e6 := GuestsError(b.noofguests), FromError(b.from), ToError(b.from, b.to);
    var e7, e8 := BookingEmailError(b.email), ContactError(b.contactno);
    BookingErrorsRecords(b);
    FillInOrderRecords(e1, e2, e3, e4, e5, e6, e7, e8);
    SameRecordsSameMap(BookingErrors(b), FillInOrder(e1, e2, e3, e4, e5, e6, e7, e8),
      e1, e2, e3, e4, e5, e6, e7, e8);
  }

  /** The form is accepted exactly when every field passes its own rule. */
  ghost predicate Acceptable(b: Fields)
    ensures Acceptable(b) ==> !IsBlank(b.email) && !IsBlank(b.contactno)
  {
    EmailShapedIffRegex(b.email);
    && !IsBlank(b.fname) && !IsBlank(b.lname) && !IsBlank(b.roomtype)
    && b.noofguests.Some? && b.noofguests.value > 0
    && b.from.Some? && b.to.Some? && b.from.value < b.to.value
    && EmailRegexMatches(b.email) && PhoneMatches(b.contactno)
  }

  lemma {:induction false} NoErrorsIffAcceptable(b: Fields)
    ensures BookingErrors(b) == map[] <==> Acceptable(b)
  {
    var m := BookingErrors(b);
    BookingErrorsRecords(b);
    if !Acceptable(b) {
      if IsBlank(b.fname) { assert FName in m; }
      else if IsBlank(b.lname) { assert LName in m; }
      else if IsBlank(b.roomtype) { assert RoomType in m; }
      else if !(b.noofguests.Some? && b.noofguests.value > 0) { assert NoOfGuests in m; }
      else if b.from.None? { assert From in m; }
      else if !(b.to.Some? && b.from.value < b.to.value) { assert To in m; }
      else if !EmailRegexMatches(b.email) { assert Email in m; }
      else { assert ContactNo in m; }
    } else {
      forall k ensures k !in m {
        match k
        case FName => case LName => case RoomType => case NoOfGuests =>
        case From => case To => case Email => case ContactNo =>
      }
    }
  }

  /** Check-in and check-out on the same day is refused. */
  lemma SameDayRefused(b: Fields)
    requires b.from.Some? && b.to == b.from
    ensures To in BookingErrors(b) && BookingErrors(b)[To] == CheckOutNotAfter
  {
    BookingErrorsRecords(b);
  }

  /** The request body: the guest count as a number, every other field as typed. */
  datatype Payload = Payload(
    fname: string, lname: string, roomtype: string, noofguests: int,
    from: int, to: int, email: string, contactno: string)

  function PayloadOf(b: Fields): (p: Payload)
    requires Acceptable(b)
    ensures p.noofguests == b.noofguests.value && p.noofguests > 0
    ensures p.from == b.from.value && p.to == b.to.value && p.from < p.to
    ensures p.fname == b.fname && p.lname == b.lname && p.roomtype == b.roomtype
    ensures p.email == b.email && p.contactno == b.contactno
  {
    Payload(b.fname, b.lname, b.roomtype, b.noofguests.value, b.from.value, b.to.value, b.email, b.contactno)
  }

  /** How the POST ended: an ok response, a refusal carrying the server's
      `message` (if any), or a thrown network error. */
  datatype Response = Accepted | Refused(message: Option<string>) | Unreachable

  class BookingForm {
    var fname: string
    var lname: string
    var roomtype: string
    var noofguests: Option<int>
    var from: Option<int>
    var to: Option<int>
    var email: string
    var contactno: string
    var errors: map<Key, string>
    var submissionMessage: string

    function Current(): Fields
      reads this
    {
      Fields(fname, lname, roomtype, noofguests, from, to, email, contactno)
    }

    constructor ()
      ensures Current() == EmptyFields && errors == map[] && submissionMessage == ""
    {
      fname, lname, roomtype, noofguests := "", "", "", None;
      from, to, email, contactno := None, None, "", "";
      errors, submissionMessage := map[], "";
    }

    /** Fills a fresh error map rule by rule, in the handler's order, and
        stores it. */
    method Validate() returns (ok: bool)
      modifies this`errors
      ensures Current() == old(Current())
      ensures errors == BookingErrors(Current())
      ensures ok <==> Acceptable(Current())
    {
      var b := Current();
      var e1, e2, e3 := RequiredText(b.fname, FirstNameRequired), RequiredText(b.lname, LastNameRequired),
        RequiredText(b.roomtype, RoomTypeRequired);
      var e4, e5, e6 := GuestsError(b.noofguests), FromError(b.from), ToError(b.from, b.to);
      var e7, e8 := BookingEmailError(b.email), ContactError(b.contactno);
      var newErrors: map<Key, string> := map[];
      newErrors := AuthRules.Put(newErrors, FName, e1);
      newErrors := AuthRules.Put(newErrors, LName, e2);
      newErrors := AuthRules.Put(newErrors, RoomType, e3);
      newErrors := AuthRules.Put(newErrors, NoOfGuests, e4);
      newErrors := AuthRules.Put(newErrors, From, e5);
      newErrors := AuthRules.Put(newErrors, To, e6);
      newErrors := AuthRules.Put(newErrors, Email, e7);
      newErrors := AuthRules.Put(newErrors, ContactNo, e8);
      assert newErrors == BookingErrors(b) by {
        FilledInOrder(b);
      }
      assert (|newErrors.Keys| == 0) == Acceptable(b) by {
        NoErrorsIffAcceptable(b);
        assert newErrors == map[] <==> |newErrors.Keys| == 0;
      }
      errors := newErrors;
      assert Current() == b;
      ok := |newErrors.Keys| == 0;
    }

    /** Empties the eight inputs and the error map after a booking is taken. */
    method ClearForm()
      modifies this
      ensures Current() == EmptyFields && errors == map[]
      ensures submissionMessage == old(submissionMessage)
    {
      fname, lname, roomtype, noofguests := "", "", "", None;
      from, to, email, contactno := None, None, "", "";
      errors := map[];
    }

    /** The submit handler. `response` is how the request would end; it is
        consulted only when a request is sent, and `sent` is that request's body. */
    method HandleSubmit(response: Response) returns (sent: Option<Payload>)
      modifies this
      ensures sent.Some? <==> Acceptable(old(Current()))
      ensures sent.Some? ==> sent.value == PayloadOf(old(Current()))
      ensures !Acceptable(old(Current())) ==>
                && Current() == old(Current()) && errors == BookingErrors(Current())
                && submissionMessage == CorrectErrors
      ensures Acceptable(old(Current())) && response == Accepted ==>
                && Current() == EmptyFields && errors == map[]
                && submissionMessage == BookingSucceeded
      ensures Acceptable(old(Current())) && response.Refused? ==>
                && Current() == old(Current()) && errors == map[]
                && submissionMessage == BookingFailedPrefix + OrText(response.message, BookingFailedFallback)
      ensures Acceptable(old(Current())) && response == Unreachable ==>
                && Current() == old(Current()) && errors == map[]
                && submissionMessage == NetworkFailure
    {
      var b := Current();
      submissionMessage := "";
      var ok := Validate();
      assert Current() == b;
      if ok {
        assert errors == map[] by {
          NoErrorsIffAcceptable(b);
        }
        sent := Some(PayloadOf(b));
        match response
        case Accepted =>
          submissionMessage := BookingSucceeded;
          ClearForm();
        case Refused(message) =>
          submissionMessage := BookingFailedPrefix + OrText(message, BookingFailedFallback);
        case Unreachable =>
          submissionMessage := NetworkFailure;
      } else {
        sent := None;
        submissionMessage := CorrectErrors;
      }
    }
  }
}
