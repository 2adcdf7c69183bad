/** What the admin editors see of a request to the backend: how it ended,
    and the effects on the browser that a handler asks for. The request itself,
    the token store and the router are outside the model. */
module Http {
  import opened JsText

  /** The error an awaited request throws: no response at all (network
      failure), or a response with its status and the `message` of its body. */
  datatype HttpError = NoResponse | ErrorResponse(status: int, message: Option<string>)

  /** How an awaited request ends: it resolves with a status, or it throws. */
  datatype Outcome = Resolved(status: int) | Thrown(error: HttpError)

  /** How an awaited load ends: it resolves with the record, or it throws. */
  datatype Fetch<T> = Fetched(data: T) | FetchFailed(error: HttpError)

  /** What a handler asks of the browser beyond its own state. */
  datatype Effect =
    | Stay                             // nothing
    | RedirectHome                     // go to the home page
    | DropTokenAndRedirectHome         // forget the stored token, then go home
    | ReturnToListLater(path: string)  // go to `path` after a two-second delay

  const SessionExpired := "Session expired or unauthorized. Please log in again."
  const TokenNotFound := "Authentication token not found. Please log in."

  /** `if (jwtToken)`: a stored token that is missing or empty counts as none. */
  predicate HasToken(token: Option<string>)
  {
    TextTruthy(token)
  }

  /** `if (id)`: the page edits an existing record exactly when the route
      carries a non-empty id. */
  predicate EditMode(id: Option<string>)
  {
    TextTruthy(id)
  }

  /** `res.status === 200 || res.status === 201`. */
  predicate Saved(status: int)
  {
    status == 200 || status == 201
  }

  /** `err.response && err.response.status === 401`. */
  predicate Unauthorized(e: HttpError)
  {
    e.ErrorResponse? && e.status == 401
  }

  /** `err.response?.data?.message || fallback`: the server's message when it
      sent a non-empty one, the fallback otherwise. */
  function ServerMessageOr(e: HttpError, fallback: string): (r: string)
    ensures e.ErrorResponse? && TextTruthy(e.message) ==> r == e.message.value
    ensures !(e.ErrorResponse? && TextTruthy(e.message)) ==> r == fallback
    ensures r != "" || fallback == ""
  {
    match e
    case NoResponse => fallback
    case ErrorResponse(_, message) => OrText(message, fallback)
  }

  /** The message a catch block stores and the effect it asks for. */
  datatype Report = Report(message: string, effect: Effect)

  /** The catch block of every load and save in the admin editors that has no
      conflict branch: 401 drops the token and leaves, anything else shows the
      server's message or the fallback and stays. */
  function Caught(e: HttpError, fallback: string): (r: Report)
    ensures r.effect == DropTokenAndRedirectHome <==> Unauthorized(e)
    ensures r.effect != DropTokenAndRedirectHome ==> r.effect == Stay
    ensures Unauthorized(e) ==> r.message == SessionExpired
    ensures !Unauthorized(e) ==> r.message == ServerMessageOr(e, fallback)
  {
    if Unauthorized(e) then Report(SessionExpired, DropTokenAndRedirectHome)
    else Report(ServerMessageOr(e, fallback), Stay)
  }

  /** A 401 ends the session whatever message the server sent with it. */
  lemma UnauthorizedIgnoresMessage(m: Option<string>, m': Option<string>, fallback: string)
    ensures Caught(ErrorResponse(401, m), fallback) == Caught(ErrorResponse(401, m'), fallback)
  {
  }

  /** A query string as its name/value pairs, in order, already decoded. */
  type Query = seq<(string, string)>

  /** `new URLSearchParams(q).get(name)`: the value of the first pair with
      that name, or none. */
  function QueryGet(q: Query, name: string): (r: Option<string>)
    ensures r.Some? ==> exists k :: 0 <= k < |q| && q[k] == (name, r.value)
                                    && forall j :: 0 <= j < k ==> q[j].0 != name
    ensures r.None? <==> forall k :: 0 <= k < |q| ==> q[k].0 != name
  {
    if q == [] then None
    else if q[0].0 == name then Some(q[0].1)
    else
      var r := QueryGet(q[1..], name);
      assert r.Some? ==> exists k :: 0 <= k < |q| && q[k] == (name, r.value)
                                    && forall j :: 0 <= j < k ==> q[j].0 != name by {
        if r.Some? {
          var k :| 0 <= k < |q[1..]| && q[1..][k] == (name, r.value)
                   && forall j :: 0 <= j < k ==> q[1..][j].0 != name;
          assert q[k + 1] == (name, r.value);
          forall j | 0 <= j < k + 1 ensures q[j].0 != name {
            if j > 0 { assert q[j] == q[1..][j - 1]; }
          }
        }
      }
      r
  }

  /** The `:id` a route of the form `prefix:id` reads from `path`: the rest of
      the path after the prefix, when it is non-empty and has no '/'. */
  function PathParam(prefix: string, path: string): (r: Option<string>)
    ensures r.Some? ==> path == prefix + r.value && r.value != ""
  {
    if |prefix| < |path| && path[..|prefix|] == prefix && '/' !in path[|prefix|..]
    then Some(path[|prefix|..])
    else None
  }

  /** A path built from a prefix and an id gives the id back. */
  lemma PathParamRoundTrip(prefix: string, id: string)
    ensures id != "" && '/' !in id ==> PathParam(prefix, prefix + id) == Some(id)
  {
    assert (prefix + id)[..|prefix|] == prefix;
    assert (prefix + id)[|prefix|..] == id;
  }
}
