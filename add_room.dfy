/** The admin page that adds a room or edits an existing one: a form record,
    two pending inputs for amenities and image URLs that are appended to lists,
    a load that fills the form from the server, and a save. */
module AddRoom {
  import opened JsText
  import opened Http

  /** The form record. Price and capacity hold what their number inputs
      produce (text) or what a load put there (a number). */
  datatype RoomForm = RoomForm(
    name: string, category: string, price: Value, capacity: Value,
    bookingStatus: string, description: string,
    amenities: seq<string>, images: seq<string>)

  const InitialForm := RoomForm("", "Standard", Text(""), Text(""), "Available", "", [], [])

  /** The inputs that `handleChange` serves, by their `name` attribute. */
  datatype RoomField = Name | Category | Price | Capacity | BookingStatus | Description

  /** A room as the server returns it; any field may be missing. */
  datatype LoadedRoom = LoadedRoom(
    name: Option<string>, category: Option<string>, price: Option<Value>, capacity: Option<Value>,
    bookingStatus: Option<string>, description: Option<string>,
    amenities: Option<seq<string>>, images: Option<seq<string>>)

  /** The body of the save request: a new room, or an update that also
      carries the room's id as `_id`. */
  datatype Request = Create(body: RoomForm) | Update(id: string, body: RoomForm)

  const RoomLoadFailed := "Failed to load room details."
  const RoomSaveFailed := "Failed to save room. Please check your inputs."
  const RoomsPath := "/admin/rooms"

  /** What the input bound to `field` shows. */
  function FieldValue(f: RoomForm, field: RoomField): Value
  {
    match field
    case Name => Text(f.name)
    case Category => Text(f.category)
    case Price => f.price
    case Capacity => f.capacity
    case BookingStatus => Text(f.bookingStatus)
    case Description => Text(f.description)
  }

  /** The record after an input named `field` reports `value`: that input
      shows the value, every other input and both lists are as before. */
  function WithField(f: RoomForm, field: RoomField, value: string): (r: RoomForm)
    ensures FieldValue(r, field) == Text(value)
    ensures forall g :: g != field ==> FieldValue(r, g) == FieldValue(f, g)
    ensures r.amenities == f.amenities && r.images == f.images
  {
    match field
    case Name => f.(name := value)
    case Category => f.(category := value)
    case Price => f.(price := Text(value))
    case Capacity => f.(capacity := Text(value))
    case BookingStatus => f.(bookingStatus := value)
    case Description => f.(description := value)
  }

  /** The list filter that keeps every element whose index is not `i`, run
      over a piece `s` of the list whose first element has index `from`. */
  function KeepOthers(s: seq<string>, i: int, from: int): (r: seq<string>)
    ensures from <= i < from + |s| ==> r == s[..i - from] + s[i - from + 1..]
    ensures !(from <= i < from + |s|) ==> r == s
    decreases |s|
  {
    if s == [] then []
    else (if from == i then [] else [s[0]]) + KeepOthers(s[1..], i, from + 1)
  }

  /** Removing by index: exactly the element at `i` goes, the others keep
      their order; an index outside the list removes nothing. */
  function RemoveAt(s: seq<string>, i: int): (r: seq<string>)
    ensures 0 <= i < |s| ==> |r| == |s| - 1
    ensures 0 <= i < |s| ==> forall k :: 0 <= k < i ==> r[k] == s[k]
    ensures 0 <= i < |s| ==> forall k :: i <= k < |r| ==> r[k] == s[k + 1]
    ensures !(0 <= i < |s|) ==> r == s
  {
    KeepOthers(s, i, 0)
  }

  /** Removing the element just appended gives the list back. */
  lemma RemoveUndoesAppend(s: seq<string>, x: string)
    ensures RemoveAt(s + [x], |s|) == s
  {
    assert (s + [x])[..|s|] == s;
  }

  /** The form a load produces: each field the server sent with a truthy
      value, otherwise the initial form's value for it. */
  function FromLoaded(d: LoadedRoom): (r: RoomForm)
    ensures r.name == (if TextTruthy(d.name) then d.name.value else InitialForm.name)
    ensures r.category == (if TextTruthy(d.category) then d.category.value else InitialForm.category)
    ensures r.price == (if ValueTruthy(d.price) then d.price.value else InitialForm.price)
    ensures r.capacity == (if ValueTruthy(d.capacity) then d.capacity.value else InitialForm.capacity)
    ensures r.bookingStatus == (if TextTruthy(d.bookingStatus) then d.bookingStatus.value else InitialForm.bookingStatus)
    ensures r.description == (if TextTruthy(d.description) then d.description.value else InitialForm.description)
    ensures r.amenities == (if d.amenities.Some? then d.amenities.value else InitialForm.amenities)
    ensures r.images == (if d.images.Some? then d.images.value else InitialForm.images)
  {
    RoomForm(
      OrText(d.name, ""), OrText(d.category, "Standard"),
      OrValue(d.price, Text("")), OrValue(d.capacity, Text("")),
      OrText(d.bookingStatus, "Available"), OrText(d.description, ""),
      OrList(d.amenities), OrList(d.images))
  }

  /** A room with nothing filled in loads as the initial form. */
  lemma EmptyRecordLoadsInitialForm()
    ensures FromLoaded(LoadedRoom(None, None, None, None, None, None, None, None)) == InitialForm
    ensures FromLoaded(LoadedRoom(Some(""), Some(""), Some(Number(0)), Some(Text("")),
                                  Some(""), Some(""), Some([]), Some([]))) == InitialForm
  {
  }

  class AddRoomPage {
    /** The id in the route; the page edits when it is non-empty. */
    const roomId: Option<string>
    var form: RoomForm
    var currentAmenity: string
    var currentImage: string
    var submitting: bool
    var submitError: Option<string>
    var submitSuccess: bool
    var loadingRoom: bool
    var roomFetchError: Option<string>
    var isLoggedIn: bool

    constructor (roomId: Option<string>)
      ensures this.roomId == roomId && form == InitialForm
      ensures currentAmenity == "" && currentImage == ""
      ensures !submitting && submitError == None && !submitSuccess
      ensures loadingRoom && roomFetchError == None && !isLoggedIn
    {
      this.roomId := roomId;
      form, currentAmenity, currentImage := InitialForm, "", "";
      submitting, submitError, submitSuccess := false, None, false;
      loadingRoom, roomFetchError, isLoggedIn := true, None, false;
    }

    /** The save button is disabled while saving, and while an edited room
        is still loading. */
    predicate SubmitDisabled()
      reads this
      ensures submitting ==> SubmitDisabled()
      ensures !EditMode(roomId) ==> (SubmitDisabled() <==> submitting)
      ensures !submitting && !loadingRoom ==> !SubmitDisabled()
    {
      submitting || (EditMode(roomId) && loadingRoom)
    }

    /** The effect that runs on mounting: without a token it leaves; in edit
        mode it starts loading the room (`fetching`); in add mode it stops the
        loading state. */
    method StartLoad(token: Option<string>) returns (effect: Effect, fetching: bool)
      modifies this`isLoggedIn, this`loadingRoom, this`roomFetchError, this`submitError, this`submitSuccess
      ensures isLoggedIn == HasToken(token)
      ensures effect == (if HasToken(token) then Stay else RedirectHome)
      ensures fetching <==> HasToken(token) && EditMode(roomId)
      ensures !HasToken(token) ==>
                && loadingRoom == old(loadingRoom) && roomFetchError == old(roomFetchError)
                && submitError == old(submitError) && submitSuccess == old(submitSuccess)
      ensures fetching ==> loadingRoom && roomFetchError == None && submitError == None && !submitSuccess
      ensures HasToken(token) && !EditMode(roomId) ==>
                && !loadingRoom && roomFetchError == old(roomFetchError)
                && submitError == old(submitError) && submitSuccess == old(submitSuccess)
    {
      if HasToken(token) {
        isLoggedIn := true;
      } else {
        isLoggedIn := false;
        return RedirectHome, false;
      }
      if EditMode(roomId) {
        loadingRoom := true;
        roomFetchError := None;
        submitError := None;
        submitSuccess := false;
        fetching := true;
      } else {
        loadingRoom := false;
        fetching := false;
      }
      effect := Stay;
    }

    /** The end of the load: the form takes the room's values with defaults,
        or the error is reported; loading stops either way. */
    method CompleteLoad(result: Fetch<LoadedRoom>) returns (effect: Effect)
      modifies this`form, this`roomFetchError, this`loadingRoom
      ensures !loadingRoom
      ensures result.Fetched? ==>
                form == FromLoaded(result.data) && roomFetchError == old(roomFetchError) && effect == Stay
      ensures result.FetchFailed? ==>
                && form == old(form)
                && roomFetchError == Some(Caught(result.error, RoomLoadFailed).message)
                && effect == Caught(result.error, RoomLoadFailed).effect
    {
      match result {
        case Fetched(data) =>
          form := FromLoaded(data);
          effect := Stay;
        case FetchFailed(error) =>
          var report := Caught(error, RoomLoadFailed);
          roomFetchError := Some(report.message);
          effect := report.effect;
      }
      loadingRoom := false;
    }

    /** An input of the form reports a new value. */
    method HandleChange(field: RoomField, value: string)
      modifies this`form
      ensures form == WithField(old(form), field, value)
    {
      form := WithField(form, field, value);
    }

    method SetCurrentAmenity(value: string)
      modifies this`currentAmenity
      ensures currentAmenity == value
    {
      currentAmenity := value;
    }

    method SetCurrentImage(value: string)
      modifies this`currentImage
      ensures currentImage == value
    {
      currentImage := value;
    }

    /** A pending amenity that is not blank is appended trimmed and the input
        is cleared; a blank one changes nothing. */
    method HandleAddAmenity()
      modifies this`form, this`currentAmenity
      ensures !IsBlank(old(currentAmenity)) ==>
                && form == old(form).(amenities := old(form.amenities) + [Trim(old(currentAmenity))])
                && currentAmenity == ""
      ensures IsBlank(old(currentAmenity)) ==> form == old(form) && currentAmenity == old(currentAmenity)
    {
      if Trim(currentAmenity) != "" {
        form := form.(amenities := form.amenities + [Trim(currentAmenity)]);
        currentAmenity := "";
      }
    }

    method HandleRemoveAmenity(index: int)
      modifies this`form
      ensures form == old(form).(amenities := RemoveAt(old(form.amenities), index))
    {
      form := form.(amenities := RemoveAt(form.amenities, index));
    }

    /** The same rule as for amenities, on the image URLs. */
    method HandleAddImage()
      modifies this`form, this`currentImage
      ensures !IsBlank(old(currentImage)) ==>
                && form == old(form).(images := old(form.images) + [Trim(old(currentImage))])
                && currentImage == ""
      ensures IsBlank(old(currentImage)) ==> form == old(form) && currentImage == old(currentImage)
    {
      if Trim(currentImage) != "" {
        form := form.(images := form.images + [Trim(currentImage)]);
        currentImage := "";
      }
    }

    method HandleRemoveImage(index: int)
      modifies this`form
      ensures form == old(form).(images := RemoveAt(old(form.images), index))
    {
      form := form.(images := RemoveAt(form.images, index));
    }

    /** The part of the submit handler before the request: without a token
        it reports and leaves; otherwise `request` is what is sent. */
    method StartSubmit(token: Option<string>) returns (effect: Effect, request: Option<Request>)
      modifies this`submitting, this`submitError, this`submitSuccess
      ensures !submitSuccess
      ensures !HasToken(token) ==>
                && !submitting && submitError == Some(TokenNotFound)
                && effect == RedirectHome && request == None
      ensures HasToken(token) ==> submitting && submitError == None && effect == Stay
      ensures HasToken(token) && EditMode(roomId) ==> request == Some(Update(roomId.value, form))
      ensures HasToken(token) && !EditMode(roomId) ==> request == Some(Create(form))
      ensures HasToken(token) ==> SubmitDisabled()
    {
      submitting := true;
      submitError := None;
      submitSuccess := false;
      if !HasToken(token) {
        submitError := Some(TokenNotFound);
        submitting := false;
        return RedirectHome, None;
      }
      if EditMode(roomId) {
        request := Some(Update(roomId.value, form));
      } else {
        request := Some(Create(form));
      }
      effect := Stay;
    }

    /** The part of the submit handler after the request. A save resets the
        form and both pending inputs only when a room was added. */
    method CompleteSubmit(outcome: Outcome) returns (effect: Effect)
      modifies this`form, this`currentAmenity, this`currentImage, this`submitting,
               this`submitError, this`submitSuccess
      ensures !submitting
      ensures outcome.Resolved? && Saved(outcome.status) ==>
                && submitSuccess && submitError == old(submitError)
                && effect == ReturnToListLater(RoomsPath)
      ensures outcome.Resolved? && Saved(outcome.status) && !EditMode(roomId) ==>
                form == InitialForm && currentAmenity == "" && currentImage == ""
      ensures !(outcome.Resolved? && Saved(outcome.status) && !EditMode(roomId)) ==>
                && form == old(form)
                && currentAmenity == old(currentAmenity) && currentImage == old(currentImage)
      ensures outcome.Resolved? && !Saved(outcome.status) ==>
                submitSuccess == old(submitSuccess) && submitError == old(submitError) && effect == Stay
      ensures outcome.Thrown? ==>
                && submitSuccess == old(submitSuccess)
                && submitError == Some(Caught(outcome.error, RoomSaveFailed).message)
                && effect == Caught(outcome.error, RoomSaveFailed).effect
    {
      match outcome {
        case Resolved(status) =>
          if Saved(status) {
            submitSuccess := true;
            if !EditMode(roomId) {
              form := InitialForm;
              currentAmenity := "";
              currentImage := "";
            }
            effect := ReturnToListLater(RoomsPath);
          } else {
            effect := Stay;
          }
        case Thrown(error) =>
          var report := Caught(error, RoomSaveFailed);
          submitError := Some(report.message);
          effect := report.effect;
      }
      submitting := false;
    }
  }
}
