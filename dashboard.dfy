/** The admin dashboard's entry check. */
module Dashboard {
  import opened JsText
  import opened Http

  /** The navigations the mount effect issues, given the stored token and
      role: home when there is no token, home when the role is exactly
      "user", none otherwise. */
  function Navigations(token: Option<string>, role: Option<string>): (r: seq<string>)
    ensures |r| <= 1
    ensures r == ["/"] <==> !HasToken(token) || role == Some("user")
    ensures r == [] <==> HasToken(token) && role != Some("user")
  {
    if !HasToken(token) then ["/"]
    else if role == Some("user") then ["/"]
    else []
  }

  /** Without a token the role is never looked at. */
  lemma TokenCheckedFirst(role: Option<string>, role': Option<string>)
    ensures Navigations(None, role) == Navigations(None, role')
    ensures Navigations(Some(""), role) == Navigations(Some(""), role')
  {
  }

  /** A missing role or any role other than "user" stays, with a token. */
  lemma AdminStays(token: string)
    requires token != ""
    ensures Navigations(Some(token), None) == []
    ensures Navigations(Some(token), Some("admin")) == []
    ensures Navigations(Some(token), Some("User")) == []
  {
  }
}
