/** The client-side session: who is logged in, and the messages shown when
    logging in, registering, updating the profile or changing the password
    fails. Each network call is replaced by its outcome, given as a parameter. */
module Session {
  import opened Domain

  // ---------------------------------------------------------------------
  // Substrings

  /** `s.includes(p)`: p occurs somewhere in s. */
  function Includes(s: string, p: string): bool
  {
    if |p| <= |s| && s[..|p|] == p then true
    else if s == [] then false
    else Includes(s[1..], p)
  }

  /** p occurs in s at offset i. */
  ghost predicate OccursAt(s: string, p: string, i: int)
  {
    0 <= i && i + |p| <= |s| && s[i..i + |p|] == p
  }

  /** p occurs in s at some offset: the reference meaning of Includes. */
  ghost predicate Occurs(s: string, p: string)
  {
    exists i :: OccursAt(s, p, i)
  }

  lemma {:induction false} IncludesIffOccurs(s: string, p: string)
    ensures Includes(s, p) <==> Occurs(s, p)
  {
    if |p| <= |s| && s[..|p|] == p {
      assert OccursAt(s, p, 0);
    } else if s != [] {
      IncludesIffOccurs(s[1..], p);
      if Occurs(s[1..], p) {
        var i :| OccursAt(s[1..], p, i);
        assert s[1..][i..i + |p|] == s[i + 1..i + 1 + |p|];
        assert OccursAt(s, p, i + 1);
      }
      if Occurs(s, p) {
        var i :| OccursAt(s, p, i);
        assert s[1..][i - 1..i - 1 + |p|] == s[i..i + |p|];
        assert OccursAt(s[1..], p, i - 1);
      }
    }
  }

  /** A pattern whose first character is missing from s does not occur in s. */
  lemma AbsentFirstCharacter(s: string, p: string)
    requires p != [] && p[0] !in s
    ensures !Occurs(s, p)
  {
    forall i | 0 <= i && i + |p| <= |s| ensures !OccursAt(s, p, i) {
      assert s[i..i + |p|][0] == s[i];
    }
  }

  // ---------------------------------------------------------------------
  // Failure messages

  /** `error.response?.data?.message || fallback`: the server's message, unless it is missing or empty. */
  function ServerText(message: Option<string>, fallback: string): (r: string)
    ensures message.Some? && message.value != "" ==> r == message.value
    ensures message.None? || message.value == "" ==> r == fallback
  {
    if message.Some? && message.value != "" then message.value else fallback
  }

  /** The message a failed login reports: invalid credentials first, then an
      unknown user, otherwise the server's own message or "Login failed". */
  function LoginFailureMessage(message: Option<string>): (r: string)
    ensures var text := ServerText(message, "Login failed");
      && (Occurs(text, "Invalid credentials") ==> r == "Invalid email or password.")
      && (!Occurs(text, "Invalid credentials") && Occurs(text, "User not found") ==>
            r == "User not found, please register.")
      && (!Occurs(text, "Invalid credentials") && !Occurs(text, "User not found") ==> r == text)
  {
    var text := ServerText(message, "Login failed");
    IncludesIffOccurs(text, "Invalid credentials");
    IncludesIffOccurs(text, "User not found");
    if Includes(text, "Invalid credentials") then "Invalid email or password."
    else if Includes(text, "User not found") then "User not found, please register."
    else text
  }

  /** The message a failed registration reports: an existing user, otherwise
      the server's own message or "Registration failed". */
  function RegisterFailureMessage(message: Option<string>): (r: string)
    ensures var text := ServerText(message, "Registration failed");
      && (Occurs(text, "User already exists") ==> r == "User already exists.")
      && (!Occurs(text, "User already exists") ==> r == text)
  {
    var text := ServerText(message, "Registration failed");
    IncludesIffOccurs(text, "User already exists");
    if Includes(text, "User already exists") then "User already exists." else text
  }

  /** A failed login with no message from the server reports "Login failed". */
  lemma LoginFailureDefault(message: Option<string>)
    requires message.None? || message.value == ""
    ensures LoginFailureMessage(message) == "Login failed"
  {
    var text := ServerText(message, "Login failed");
    AbsentFirstCharacter(text, "Invalid credentials");
    AbsentFirstCharacter(text, "User not found");
  }

  /** A failed registration with no message from the server reports "Registration failed". */
  lemma RegisterFailureDefault(message: Option<string>)
    requires message.None? || message.value == ""
    ensures RegisterFailureMessage(message) == "Registration failed"
  {
    var text := ServerText(message, "Registration failed");
    AbsentFirstCharacter(text, "User already exists");
  }

  /** Invalid credentials take precedence over an unknown user: a text holding
      both phrases reports invalid credentials. */
  lemma InvalidCredentialsFirst(message: Option<string>)
    requires Occurs(ServerText(message, "Login failed"), "Invalid credentials")
    requires Occurs(ServerText(message, "Login failed"), "User not found")
    ensures LoginFailureMessage(message) == "Invalid email or password."
  {
  }

  // ---------------------------------------------------------------------
  // The session state

  /** The user record the server returns on login and registration. */
  datatype UserData = UserData(id: string, name: string, email: string, token: string)

  /** The name and email the server returns after a profile update. */
  datatype Profile = Profile(name: string, email: string)

  /** The outcome of a network call: its data, or a failure with the server's message if any. */
  datatype Outcome<T> = Succeeded(data: T) | Failed(message: Option<string>)

  /** `{ success: true }` or `{ success: false, message }`. */
  datatype Reply = Reply(success: bool, message: Option<string>)

  class Session {
    /** The logged-in user, or None. */
    var user: Option<UserData>

    constructor ()
      ensures user == None
    {
      user := None;
    }

    /** Logs in with the server's answer: the returned user becomes the session user. */
    method Login(response: Outcome<UserData>) returns (reply: Reply)
      modifies this
      ensures response.Succeeded? ==> user == Some(response.data) && reply == Reply(true, None)
      ensures response.Failed? ==>
        && user == old(user)
        && reply == Reply(false, Some(LoginFailureMessage(response.message)))
    {
      match response
      case Succeeded(data) =>
        user := Some(data);
        reply := Reply(true, None);
      case Failed(message) =>
        reply := Reply(false, Some(LoginFailureMessage(message)));
    }

    /** Registers with the server's answer: the new user is logged in at once. */
    method Register(response: Outcome<UserData>) returns (reply: Reply)
      modifies this
      ensures response.Succeeded? ==> user == Some(response.data) && reply == Reply(true, None)
      ensures response.Failed? ==>
        && user == old(user)
        && reply == Reply(false, Some(RegisterFailureMessage(response.message)))
    {
      match response
      case Succeeded(data) =>
        user := Some(data);
        reply := Reply(true, None);
      case Failed(message) =>
        reply := Reply(false, Some(RegisterFailureMessage(message)));
    }

    method Logout()
      modifies this
      ensures user == None
    {
      user := None;
    }

    /** Updates the profile with the server's answer. Only the name and email of
        the session user change; the id and token stay. Without a session user
        the request is never made (reading the token fails first). */
    method UpdateProfile(response: Outcome<Profile>) returns (reply: Reply)
      modifies this
      ensures old(user).None? ==>
        user == old(user) && reply == Reply(false, Some("Failed to update profile"))
      ensures old(user).Some? && response.Succeeded? ==>
        && user.Some?
        && user.value.name == response.data.name
        && user.value.email == response.data.email
        && user.value.id == old(user).value.id
        && user.value.token == old(user).value.token
        && reply == Reply(true, None)
      ensures old(user).Some? && response.Failed? ==>
        && user == old(user)
        && reply == Reply(false, Some(ServerText(response.message, "Failed to update profile")))
    {
      if user.None? {
        return Reply(false, Some("Failed to update profile"));
      }
      match response
      case Succeeded(data) =>
        user := Some(user.value.(name := data.name, email := data.email));
        reply := Reply(true, None);
      case Failed(message) =>
        reply := Reply(false, Some(ServerText(message, "Failed to update profile")));
    }

    /** Changes the password with the server's answer; the session user never changes. */
    method ChangePassword(response: Outcome<()>) returns (reply: Reply)
      ensures old(user).None? ==> reply == Reply(false, Some("Failed to change password"))
      ensures old(user).Some? && response.Succeeded? ==> reply == Reply(true, None)
      ensures old(user).Some? && response.Failed? ==>
        reply == Reply(false, Some(ServerText(response.message, "Failed to change password")))
    {
      if user.None? {
        return Reply(false, Some("Failed to change password"));
      }
      match response
      case Succeeded(_) =>
        reply := Reply(true, None);
      case Failed(message) =>
        reply := Reply(false, Some(ServerText(message, "Failed to change password")));
    }
  }
}
