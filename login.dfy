/** The email and password rules that the login and sign-up forms both apply,
    one message per field, "required" taking precedence over "invalid". */
module AuthRules {
  import opened JsText
  import opened Patterns

  const EmailRequired := "Email is required"
  const EmailInvalid := "Email is invalid"
  const PasswordRequired := "Password is required"
  const PasswordTooShort := "Password must be at least 6 characters"
  const MinPasswordLength := 6

  /** The message recorded under Email, if any. An empty email is only
      "required"; the pattern is tested only on a non-empty one. */
  function EmailError(email: string): (r: Option<string>)
    ensures r == None <==> email != "" && EmailRegexMatches(email)
    ensures email == "" ==> r == Some(EmailRequired)
    ensures email != "" && r != None ==> r == Some(EmailInvalid)
  {
    EmailShapedIffRegex(email);
    if email == "" then Some(EmailRequired)
    else if !EmailShaped(email) then Some(EmailInvalid)
    else None
  }

  /** The message recorded under Password, if any. */
  function PasswordError(password: string): (r: Option<string>)
    ensures r == None <==> |password| >= MinPasswordLength
    ensures password == "" ==> r == Some(PasswordRequired)
    ensures password != "" && r != None ==> r == Some(PasswordTooShort)
  {
    if password == "" then Some(PasswordRequired)
    else if |password| < MinPasswordLength then Some(PasswordTooShort)
    else None
  }

  /** `m` holds a message under `key` exactly when `e` is one, and then that one. */
  predicate Records<K(!new)>(m: map<K, string>, key: K, e: Option<string>)
  {
    (key in m <==> e.Some?) && (key in m ==> m[key] == e.value)
  }

  /** `newErrors[key] = message` when there is a message, otherwise no change. */
  function Put<K(!new)>(m: map<K, string>, key: K, e: Option<string>): (r: map<K, string>)
    ensures key !in m ==> Records(r, key, e)
    ensures forall k :: k != key ==> (k in r <==> k in m) && (k in r ==> r[k] == m[k])
  {
    if e.Some? then m[key := e.value] else m
  }

  /** The keys of `entries` are pairwise different. */
  predicate DistinctKeys<K(==)>(entries: seq<(K, Option<string>)>)
  {
    forall i, j :: 0 <= i < j < |entries| ==> entries[i].0 != entries[j].0
  }

  /** A validator's run of `if` statements: each pair's key is assigned its
      message, when there is one, in order. */
  function PutAll<K(!new)>(m: map<K, string>, entries: seq<(K, Option<string>)>): map<K, string>
    decreases |entries|
  {
    if entries == [] then m else PutAll(Put(m, entries[0].0, entries[0].1), entries[1..])
  }

  /** A key that no pair names keeps what it had. */
  lemma {:induction false} PutAllKeeps<K(!new)>(m: map<K, string>, entries: seq<(K, Option<string>)>, key: K)
    requires forall i :: 0 <= i < |entries| ==> entries[i].0 != key
    ensures key in PutAll(m, entries) <==> key in m
    ensures key in m ==> PutAll(m, entries)[key] == m[key]
    decreases |entries|
  {
    if entries != [] {
      PutAllKeeps(Put(m, entries[0].0, entries[0].1), entries[1..], key);
    }
  }

  /** With distinct keys, each key ends up holding exactly its own pair's
      message: no later assignment overwrites an earlier one. */
  lemma {:induction false} PutAllRecords<K(!new)>(m: map<K, string>, entries: seq<(K, Option<string>)>, i: int)
    requires DistinctKeys(entries) && 0 <= i < |entries| && entries[i].0 !in m
    ensures Records(PutAll(m, entries), entries[i].0, entries[i].1)
    decreases |entries|
  {
    var m' := Put(m, entries[0].0, entries[0].1);
    if i == 0 {
      assert forall j :: 0 <= j < |entries[1..]| ==> entries[1..][j].0 == entries[j + 1].0;
      PutAllKeeps(m', entries[1..], entries[0].0);
    } else {
      assert DistinctKeys(entries[1..]) by {
        forall a, b | 0 <= a < b < |entries[1..]| ensures entries[1..][a].0 != entries[1..][b].0 {
          assert entries[1..][a] == entries[a + 1] && entries[1..][b] == entries[b + 1];
        }
      }
      assert entries[1..][i - 1] == entries[i];
      PutAllRecords(m', entries[1..], i - 1);
    }
  }

  /** A non-blank word, an '@', another, a '.', and a third one are enough,
      wherever they sit: the pattern is not anchored. */
  lemma SurroundedEmailAccepted()
    ensures EmailError(" guest@hotel.com ") == None
    ensures EmailError("contact: a@b.c!") == None
  {
    assert ShapedAt(" guest@hotel.com ", 6, 12);
    assert ShapedAt("contact: a@b.c!", 10, 12);
  }

  /** A non-empty email with no '.' anywhere after an '@' is invalid, as
      "guest@hotel" is. */
  lemma DotlessEmailRejected(s: string)
    requires s != ""
    requires forall a, d :: 0 <= a < d < |s| && s[a] == '@' ==> s[d] != '.'
    ensures EmailError(s) == Some(EmailInvalid)
  {
    assert forall p, d :: 0 <= p < |s| && 0 <= d < |s| ==> !ShapedAt(s, p, d);
  }

  lemma EmailNeedsDot(s: string)
    requires forall k :: 0 <= k < |s| ==> s[k] != '.'
    ensures !EmailShaped(s)
  {
  }
}

/** The login page: two fields and the error map `validate` writes. */
module Login {
  import opened JsText
  import opened AuthRules

  /** The keys `validate` may set on its error object. */
  datatype Key = Email | Password

  /** The error map `validate` builds for the login form. */
  function LoginErrors(email: string, password: string): (m: map<Key, string>)
    ensures m.Keys <= {Email, Password}
    ensures Records(m, Email, EmailError(email))
    ensures Records(m, Password, PasswordError(password))
    ensures m == map[] <==> email != "" && Patterns.EmailRegexMatches(email) && |password| >= MinPasswordLength
  {
    Put(Put(map[], Email, EmailError(email)), Password, PasswordError(password))
  }

  /** The email error depends on the email alone and the password error on the
      password alone. */
  lemma FieldsIndependent(email: string, password: string, email': string, password': string)
    ensures (Email in LoginErrors(email, password)) == (Email in LoginErrors(email, password'))
    ensures Email in LoginErrors(email, password) ==>
              LoginErrors(email, password)[Email] == LoginErrors(email, password')[Email]
    ensures (Password in LoginErrors(email, password)) == (Password in LoginErrors(email', password))
    ensures Password in LoginErrors(email, password) ==>
              LoginErrors(email, password)[Password] == LoginErrors(email', password)[Password]
  {
  }

  class LoginForm {
    var email: string
    var password: string
    var errors: map<Key, string>

    constructor ()
      ensures email == "" && password == "" && errors == map[]
    {
      email, password, errors := "", "", map[];
    }

    method SetEmail(value: string)
      modifies this
      ensures email == value && password == old(password) && errors == old(errors)
    {
      email := value;
    }

    method SetPassword(value: string)
      modifies this
      ensures password == value && email == old(email) && errors == old(errors)
    {
      password := value;
    }

    /** Fills a fresh error map field by field, stores it, and reports whether
        it has no keys. */
    method Validate() returns (ok: bool)
      modifies this
      ensures email == old(email) && password == old(password)
      ensures errors == LoginErrors(email, password)
      ensures ok <==> errors == map[]
    {
      var newErrors: map<Key, string> := map[];
      if email == "" {
        newErrors := newErrors[Email := EmailRequired];
      } else if !Patterns.EmailShaped(email) {
        newErrors := newErrors[Email := EmailInvalid];
      }
      if password == "" {
        newErrors := newErrors[Password := PasswordRequired];
      } else if |password| < MinPasswordLength {
        newErrors := newErrors[Password := PasswordTooShort];
      }
      errors := newErrors;
      ok := |newErrors.Keys| == 0;
    }

    /** The submit handler; `proceeds` is whether its success branch runs. */
    method HandleSubmit() returns (proceeds: bool)
      modifies this
      ensures email == old(email) && password == old(password)
      ensures errors == LoginErrors(email, password)
      ensures proceeds <==> errors == map[]
    {
      proceeds := Validate();
    }
  }
}
