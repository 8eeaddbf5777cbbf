/** The "me" endpoint of users/views.py: reading the caller's id, email and
    username, and renaming the caller after trimming and checking the new
    username. */
module UserViews {
  import opened Common

  /** The characters `str.strip()` removes: those Python classes as
      whitespace (`str.isspace`). */
  predicate IsSpace(c: char)
  {
    c == ' ' || ('\t' <= c <= '\r') || ('\U{1c}' <= c <= '\U{1f}') ||
    c == '\U{85}' || c == '\U{a0}' || c == '\U{1680}' || ('\U{2000}' <= c <= '\U{200a}') ||
    c == '\U{2028}' || c == '\U{2029}' || c == '\U{202f}' || c == '\U{205f}' || c == '\U{3000}'
  }

  /** The number of whitespace characters at the front of `s`. */
  function LeadingSpaces(s: string): (n: nat)
    ensures n <= |s|
    ensures forall k :: 0 <= k < n ==> IsSpace(s[k])
    ensures n < |s| ==> !IsSpace(s[n])
  {
    if s == [] || !IsSpace(s[0]) then 0
    else 1 + LeadingSpaces(s[1..])
  }

  /** The number of whitespace characters at the end of `s`. */
  function TrailingSpaces(s: string): (n: nat)
    ensures n <= |s|
    ensures forall k :: |s| - n <= k < |s| ==> IsSpace(s[k])
    ensures n < |s| ==> !IsSpace(s[|s| - n - 1])
  {
    if s == [] || !IsSpace(s[|s| - 1]) then 0
    else 1 + TrailingSpaces(s[..|s| - 1])
  }

  /** `str.strip()`: the slice of `s` left after removing the whitespace
      at both ends. It is empty exactly when `s` is all whitespace, and
      otherwise starts and ends with a character that is not whitespace. */
  function Strip(s: string): (r: string)
    ensures |r| <= |s|
    ensures r == [] <==> forall k :: 0 <= k < |s| ==> IsSpace(s[k])
    ensures r != [] ==> !IsSpace(r[0]) && !IsSpace(r[|r| - 1])
    ensures var i := LeadingSpaces(s);
      i + |r| <= |s| && r == s[i..i + |r|] &&
      (forall k :: i + |r| <= k < |s| ==> IsSpace(s[k]))
  {
    var i := LeadingSpaces(s);
    var m := TrailingSpaces(s[i..]);
    TrimmedSlice(s, i, m);
    s[i..][..|s| - i - m]
  }

  lemma TrimmedSlice(s: string, i: nat, m: nat)
    requires i == LeadingSpaces(s) && m == TrailingSpaces(s[i..])
    ensures var r := s[i..][..|s| - i - m];
      i + |r| <= |s| && r == s[i..i + |r|] &&
      (forall k :: i + |r| <= k < |s| ==> IsSpace(s[k])) &&
      (r == [] <==> forall k :: 0 <= k < |s| ==> IsSpace(s[k])) &&
      (r != [] ==> !IsSpace(r[0]) && !IsSpace(r[|r| - 1]))
  {
    var t := s[i..];
    var r := t[..|t| - m];
    assert r == s[i..i + |r|];
    assert r != [] ==> r[0] == s[i] && r[|r| - 1] == t[|t| - m - 1];
    forall k | i + |r| <= k < |s| ensures IsSpace(s[k]) {
      assert s[k] == t[k - i];
    }
  }

  /** Stripping twice is stripping once. */
  lemma StripIsIdempotent(s: string)
    ensures Strip(Strip(s)) == Strip(s)
  {
    var r := Strip(s);
    assert LeadingSpaces(r) == 0;
    assert TrailingSpaces(r[LeadingSpaces(r)..]) == 0 by {
      assert r[LeadingSpaces(r)..] == r;
    }
    assert r[0..] == r;
    assert r[0..][..|r| - 0] == r;
  }

  /** What the caller's user record shows: the three fields of the response. */
  datatype Me = Me(id: nat, email: string, username: string)

  /** A `me` response: 200 with the user's fields, or 400 with one message
      for the `username` field. */
  datatype MeResponse = Ok(me: Me) | UsernameError(message: string)

  /** The verdict on a requested username: rejected with a message, or
      accepted as the stripped value. */
  datatype Verdict = Accept(username: string) | Reject(message: string)

  /** The validation of `patch`: an absent or empty value is required, a
      stripped value shorter than 3 characters is too short, and anything
      else is accepted as stripped. */
  function CheckUsername(v: Option<string>): (r: Verdict)
    ensures v.None? || v == Some("") ==> r == Reject("This field is required.")
    ensures v.Some? && v.value != "" ==>
      (r.Reject? <==> |Strip(v.value)| < 3) &&
      (r.Reject? ==> r.message == "Username must be at least 3 characters.")
    ensures r.Accept? ==> v.Some? && r.username == Strip(v.value) && |r.username| >= 3
  {
    if v.None? || v.value == "" then Reject("This field is required.")
    else
      var name := Strip(v.value);
      if |name| < 3 then Reject("Username must be at least 3 characters.")
      else Accept(name)
  }

  /** An accepted username has no whitespace at either end, and submitting
      it again is accepted unchanged. */
  lemma AcceptedIsStable(v: Option<string>)
    requires CheckUsername(v).Accept?
    ensures var name := CheckUsername(v).username;
      !IsSpace(name[0]) && !IsSpace(name[|name| - 1]) &&
      CheckUsername(Some(name)) == Accept(name)
  {
    StripIsIdempotent(v.value);
  }

  /** A value made only of whitespace passes the "required" check but is
      rejected as too short. */
  lemma BlankIsTooShort(s: string)
    requires s != "" && forall k :: 0 <= k < |s| ==> IsSpace(s[k])
    ensures CheckUsername(Some(s)) == Reject("Username must be at least 3 characters.")
  {
  }

  /** `patch` as a function of the user before the request: on acceptance
      only the username changes, to the stripped value, and the response
      shows the updated fields; on rejection nothing changes. */
  function PatchMe(u: Me, v: Option<string>): (r: (Me, MeResponse))
    ensures r.0.id == u.id && r.0.email == u.email
    ensures r.1.Ok? <==> CheckUsername(v).Accept?
    ensures r.1.Ok? ==> r.0.username == CheckUsername(v).username && r.1.me == r.0
    ensures r.1.UsernameError? ==> r.0 == u && r.1.message == CheckUsername(v).message
  {
    match CheckUsername(v)
    case Accept(name) =>
      var u' := u.(username := name);
      (u', Ok(u'))
    case Reject(msg) => (u, UsernameError(msg))
  }

  /** The authenticated user; only `username` is ever written here. */
  class User {
    const id: nat
    var email: string
    var username: string

    function Fields(): Me
      reads this
    {
      Me(id, email, username)
    }

    constructor (id: nat, email: string, username: string)
      ensures Fields() == Me(id, email, username)
    {
      this.id := id;
      this.email := email;
      this.username := username;
    }

    /** `MyUserMeView.get`: the id, email and username. */
    method Get() returns (r: MeResponse)
      ensures r == Ok(Me(id, email, username))
    {
      r := Ok(Me(id, email, username));
    }

    /** `MyUserMeView.patch`: checks the requested username, then writes
        the stripped value to the `username` field alone. */
    method Patch(v: Option<string>) returns (r: MeResponse)
      modifies this`username
      ensures (Fields(), r) == PatchMe(old(Fields()), v)
    {
      if v.None? || v.value == "" {
        return UsernameError("This field is required.");
      }
      var name := Strip(v.value);
      if |name| < 3 {
        return UsernameError("Username must be at least 3 characters.");
      }
      username := name;
      r := Ok(Me(id, email, username));
    }
  }
}
