// The legacy Python validator (redirect/validation.py): each validate_*
// method builds its list of messages step by step from the request
// parameters and returns it with the raw values it found. No state survives
// a call. socket.inet_aton is the parameter `inetAton`.

module PyValidation {
  import opened Basics
  import Validation

  const MissingUsername := "missing username"
  const UsernameInvalid := "username has invalid characters"
  const UsernameShort := "username is too short (< 5)"
  const UsernameLong := "username is too long (> 50)"
  const MissingEmail := "missing email"
  const EmailInvalid := "not valid email"
  const MissingPassword := "missing password"
  const PasswordShort := "password should be 7 or more characters"
  const MissingPort := "missing port"
  const PortInvalid := "port should a number between 1 and 65535"
  const IpInvalid := "invalid ip"
  const MissingToken := "No token provided"

  /** The request parameters: a dictionary of strings. */
  type Params = map<string, string>

  /** The value under `key`, or None when the key is absent. */
  function Lookup(params: Params, key: string): (r: Option<string>)
    ensures r.Some? <==> key in params
    ensures r.Some? ==> r.value == params[key]
  {
    if key in params then Some(params[key]) else None
  }

  // ------------------------------------------------------------ patterns

  /** re.match("^[\w-]+$", s): Python's `$` also matches just before a final
    * newline, so one trailing "\n" is allowed. */
  predicate MatchesWordLabel(s: string) {
    IsWordLabel(s) || (|s| >= 2 && s[|s| - 1] == '\n' && IsWordLabel(s[..|s| - 1]))
  }

  /** re.match(r"[^@]+@[^@]+\.[^@]+", s): the pattern matches a prefix of s,
    * so its '@' is the first '@' of s. */
  predicate StartsWithEmail(s: string) {
    exists i, j | 0 <= i < |s| && 0 <= j < |s| ::
      Validation.EmailMatchAt(s, i, j) && forall k :: 0 <= k < i ==> s[k] != '@'
  }

  /** port.isdigit() and 1 <= int(port) <= 65535 (ASCII digits). */
  predicate IsPortNumber(s: string) {
    |s| > 0 && AllDigits(s) && 1 <= DigitsValue(s) <= 65535
  }

  // ---------------------------------------------------- message functions

  /** The username messages: one for a missing name, otherwise one for each
    * of the charset, the minimum and the maximum length it violates. */
  function UsernameMessages(username: Option<string>): (r: seq<string>)
    ensures username.None? ==> r == [MissingUsername]
    ensures username.Some? ==>
      (var u := username.value;
       (UsernameInvalid in r <==> !MatchesWordLabel(u)) &&
       (UsernameShort in r <==> |u| < 5) &&
       (UsernameLong in r <==> |u| > 50) &&
       MissingUsername !in r &&
       |r| == (if MatchesWordLabel(u) then 0 else 1) + (if |u| < 5 then 1 else 0) + (if |u| > 50 then 1 else 0))
  {
    match username
    case None => [MissingUsername]
    case Some(u) =>
      (if MatchesWordLabel(u) then [] else [UsernameInvalid]) +
      (if |u| < 5 then [UsernameShort] else []) +
      (if |u| > 50 then [UsernameLong] else [])
  }

  /** The email messages: missing, or not starting with an address. */
  function EmailMessages(email: Option<string>): (r: seq<string>)
    ensures |r| <= 1
    ensures r == [] <==> email.Some? && StartsWithEmail(email.value)
    ensures email.None? ==> r == [MissingEmail]
  {
    match email
    case None => [MissingEmail]
    case Some(e) => if StartsWithEmail(e) then [] else [EmailInvalid]
  }

  /** The password messages of validate_create: missing, or under 7 characters. */
  function PasswordMessages(password: Option<string>): (r: seq<string>)
    ensures |r| <= 1
    ensures r == [] <==> password.Some? && |password.value| >= 7
    ensures password.None? ==> r == [MissingPassword]
  {
    match password
    case None => [MissingPassword]
    case Some(p) => if |p| < 7 then [PasswordShort] else []
  }

  /** The port messages: missing, or not a number in 1..65535. */
  function PortMessages(port: Option<string>): (r: seq<string>)
    ensures |r| <= 1
    ensures r == [] <==> port.Some? && IsPortNumber(port.value)
    ensures port.None? ==> r == [MissingPort]
  {
    match port
    case None => [MissingPort]
    case Some(p) => if IsPortNumber(p) then [] else [PortInvalid]
  }

  /** The ip messages: an absent ip is no error (the remote address stands
    * in); a present one inet_aton rejects is. */
  function IpMessages(ip: Option<string>, inetAton: string -> bool): (r: seq<string>)
    ensures |r| <= 1
    ensures r == [] <==> ip.None? || inetAton(ip.value)
    ensures r != [] ==> r == [IpInvalid]
  {
    if ip.Some? && !inetAton(ip.value) then [IpInvalid] else []
  }

  /** One message, when the value is absent. */
  function PresenceMessages(value: Option<string>, missing: string): (r: seq<string>)
    ensures r == [] <==> value.Some?
    ensures r != [] ==> r == [missing]
  {
    if value.None? then [missing] else []
  }

  /** The messages of validate_create, field by field in this order:
    * username, email, password, port, ip. */
  function CreateMessages(params: Params, inetAton: string -> bool): (r: seq<string>)
    ensures r == [] <==>
      ("username" in params && MatchesWordLabel(params["username"]) && 5 <= |params["username"]| <= 50 &&
       "email" in params && StartsWithEmail(params["email"]) &&
       "password" in params && |params["password"]| >= 7 &&
       "port" in params && IsPortNumber(params["port"]) &&
       ("ip" in params ==> inetAton(params["ip"])))
  {
    UsernameMessages(Lookup(params, "username")) + EmailMessages(Lookup(params, "email")) +
    PasswordMessages(Lookup(params, "password")) + PortMessages(Lookup(params, "port")) +
    IpMessages(Lookup(params, "ip"), inetAton)
  }

  // ------------------------------------------------------------- methods

  /** validate_port. */
  method ValidatePort(params: Params) returns (errors: seq<string>, port: Option<string>)
    ensures errors == PortMessages(Lookup(params, "port")) && port == Lookup(params, "port")
  {
    errors := [];
    port := None;
    if "port" !in params {
      errors := errors + [MissingPort];
    } else {
      port := Some(params["port"]);
      var p := params["port"];
      if !(|p| > 0 && AllDigits(p)) || DigitsValue(p) < 1 || DigitsValue(p) > 65535 {
        errors := errors + [PortInvalid];
      }
    }
  }

  /** validate_ip: the given ip, or the remote address when there is none. */
  method ValidateIp(params: Params, remoteAddr: Option<string>, inetAton: string -> bool)
    returns (errors: seq<string>, ip: Option<string>)
    ensures errors == IpMessages(Lookup(params, "ip"), inetAton)
    ensures ip == if "ip" in params then Some(params["ip"]) else remoteAddr
  {
    errors := [];
    if "ip" in params {
      ip := Some(params["ip"]);
      if !inetAton(params["ip"]) {
        errors := errors + [IpInvalid];
      }
    } else {
      ip := remoteAddr;
    }
  }

  /** validate_token. */
  method ValidateToken(params: Params) returns (errors: seq<string>, token: Option<string>)
    ensures errors == PresenceMessages(Lookup(params, "token"), MissingToken) && token == Lookup(params, "token")
  {
    errors := [];
    token := None;
    if "token" !in params {
      errors := errors + [MissingToken];
    } else {
      token := Some(params["token"]);
    }
  }

  /** validate_username: presence only. */
  method ValidateUsername(params: Params) returns (errors: seq<string>, username: Option<string>)
    ensures errors == PresenceMessages(Lookup(params, "username"), MissingUsername)
    ensures username == Lookup(params, "username")
  {
    errors := [];
    username := None;
    if "username" !in params {
      errors := errors + [MissingUsername];
    } else {
      username := Some(params["username"]);
    }
  }

  /** validate_password: presence only. */
  method ValidatePassword(params: Params) returns (errors: seq<string>, password: Option<string>)
    ensures errors == PresenceMessages(Lookup(params, "password"), MissingPassword)
    ensures password == Lookup(params, "password")
  {
    errors := [];
    password := None;
    if "password" !in params {
      errors := errors + [MissingPassword];
    } else {
      password := Some(params["password"]);
    }
  }

  /** The username part of validate_create. */
  method CreateUsername(params: Params) returns (errors: seq<string>, username: Option<string>)
    ensures errors == UsernameMessages(Lookup(params, "username")) && username == Lookup(params, "username")
  {
    errors := [];
    username := None;
    if "username" !in params {
      errors := errors + [MissingUsername];
    } else {
      username := Some(params["username"]);
      var u := params["username"];
      if !MatchesWordLabel(u) {
        errors := errors + [UsernameInvalid];
      }
      if |u| < 5 {
        errors := errors + [UsernameShort];
      }
      if |u| > 50 {
        errors := errors + [UsernameLong];
      }
    }
  }

  /** The email part of validate_create. */
  method CreateEmail(params: Params) returns (errors: seq<string>, email: Option<string>)
    ensures errors == EmailMessages(Lookup(params, "email")) && email == Lookup(params, "email")
  {
    errors := [];
    email := None;
    if "email" !in params {
      errors := errors + [MissingEmail];
    } else {
      email := Some(params["email"]);
      if !StartsWithEmail(params["email"]) {
        errors := errors + [EmailInvalid];
      }
    }
  }

  /** The password part of validate_create. */
  method CreatePassword(params: Params) returns (errors: seq<string>, password: Option<string>)
    ensures errors == PasswordMessages(Lookup(params, "password")) && password == Lookup(params, "password")
  {
    errors := [];
    password := None;
    if "password" !in params {
      errors := errors + [MissingPassword];
    } else {
      password := Some(params["password"]);
      if |params["password"]| < 7 {
        errors := errors + [PasswordShort];
      }
    }
  }

  /** validate_create: all field messages in order, and the raw values. */
  method ValidateCreate(params: Params, remoteAddr: Option<string>, inetAton: string -> bool)
    returns (errors: seq<string>, username: Option<string>, email: Option<string>,
             password: Option<string>, port: Option<string>, ip: Option<string>)
    ensures errors == CreateMessages(params, inetAton)
    ensures username == Lookup(params, "username") && email == Lookup(params, "email")
    ensures password == Lookup(params, "password") && port == Lookup(params, "port")
    ensures ip == if "ip" in params then Some(params["ip"]) else remoteAddr
  {
    var usernameErrors, emailErrors, passwordErrors, portErrors, ipErrors;
    usernameErrors, username := CreateUsername(params);
    errors := usernameErrors;
    emailErrors, email := CreateEmail(params);
    errors := errors + emailErrors;
    passwordErrors, password := CreatePassword(params);
    errors := errors + passwordErrors;
    portErrors, port := ValidatePort(params);
    errors := errors + portErrors;
    ipErrors, ip := ValidateIp(params, remoteAddr, inetAton);
    errors := errors + ipErrors;
  }

  /** validate_update: token, ip and port messages, in that order. */
  method ValidateUpdate(params: Params, remoteAddr: Option<string>, inetAton: string -> bool)
    returns (errors: seq<string>, token: Option<string>, ip: Option<string>, port: Option<string>)
    ensures errors == PresenceMessages(Lookup(params, "token"), MissingToken) +
                      IpMessages(Lookup(params, "ip"), inetAton) + PortMessages(Lookup(params, "port"))
    ensures errors == [] <==>
      "token" in params && ("ip" in params ==> inetAton(params["ip"])) && "port" in params && IsPortNumber(params["port"])
    ensures token == Lookup(params, "token") && port == Lookup(params, "port")
    ensures ip == if "ip" in params then Some(params["ip"]) else remoteAddr
  {
    var tokenErrors, ipErrors, portErrors;
    tokenErrors, token := ValidateToken(params);
    ipErrors, ip := ValidateIp(params, remoteAddr, inetAton);
    portErrors, port := ValidatePort(params);
    errors := tokenErrors + ipErrors + portErrors;
  }

  /** validate_credentials: only that username and password are present. */
  method ValidateCredentials(params: Params) returns (errors: seq<string>, username: Option<string>, password: Option<string>)
    ensures errors == PresenceMessages(Lookup(params, "username"), MissingUsername) +
                      PresenceMessages(Lookup(params, "password"), MissingPassword)
    ensures errors == [] <==> "username" in params && "password" in params
    ensures username == Lookup(params, "username") && password == Lookup(params, "password")
  {
    errors := [];
    var usernameErrors, passwordErrors;
    usernameErrors, username := ValidateUsername(params);
    errors := errors + usernameErrors;
    passwordErrors, password := ValidatePassword(params);
    errors := errors + passwordErrors;
  }

  // ------------------------------------------------------------------ lemmas

  /** The parameters of the well-formed request pass with no message. */
  lemma WellFormedRequestPasses(inetAton: string -> bool)
    requires inetAton("192.168.1.1")
    ensures CreateMessages(map["username" := "username", "email" := "valid@mail.com", "password" := "pass123456",
                                "port" := "80", "ip" := "192.168.1.1"], inetAton) == []
  {
    var params := map["username" := "username", "email" := "valid@mail.com", "password" := "pass123456",
                       "port" := "80", "ip" := "192.168.1.1"];
    assert Lookup(params, "username") == Some("username") && Lookup(params, "email") == Some("valid@mail.com");
    assert Lookup(params, "password") == Some("pass123456") && Lookup(params, "port") == Some("80");
    assert Lookup(params, "ip") == Some("192.168.1.1");
    var e := "valid@mail.com";
    assert Validation.EmailMatchAt(e, 5, 10);
    assert forall k :: 0 <= k < 5 ==> e[k] != '@';
    assert StartsWithEmail(e);
    assert IsWordLabel("username");
    assert DigitsValue("80") == 80 by {
      assert "80"[..1] == "8";
      assert DigitsValue("8") == 8 by { assert "8"[..0] == ""; }
    }
  }

  /** A name with a character outside `[\w-]` gets one message. */
  lemma UsernameWithDotRejected()
    ensures UsernameMessages(Some("user.name")) == [UsernameInvalid]
  {
    assert !IsWordOrDash("user.name"[4]);
  }

  /** A valid but short name gets one message. */
  lemma ShortUsernameRejected()
    ensures UsernameMessages(Some("use")) == [UsernameShort]
  {
    assert IsWordLabel("use");
  }

  /** A 51-character name gets one message. */
  lemma LongUsernameRejected(u: string)
    requires IsWordLabel(u) && |u| == 51
    ensures UsernameMessages(Some(u)) == [UsernameLong]
  {
  }

  /** The empty name violates the charset and the minimum length. */
  lemma EmptyUsernameGetsTwoMessages()
    ensures UsernameMessages(Some("")) == [UsernameInvalid, UsernameShort]
  {
  }

  /** The anchored `$` lets a name with a trailing newline through. */
  lemma TrailingNewlineAccepted(u: string)
    requires IsWordLabel(u) && 5 <= |u| < 50
    ensures UsernameMessages(Some(u + "\n")) == []
  {
    assert (u + "\n")[..|u|] == u;
  }

  /** The port bounds are inclusive: 1 and 65535 pass, 0 and 65536 do not. */
  lemma PortBounds()
    ensures PortMessages(Some("1")) == [] && PortMessages(Some("65535")) == []
    ensures PortMessages(Some("0")) == [PortInvalid] && PortMessages(Some("65536")) == [PortInvalid]
    ensures PortMessages(Some("")) == [PortInvalid] && PortMessages(Some("8o")) == [PortInvalid]
  {
    assert DigitsValue("1") == 1 by { assert "1"[..0] == ""; }
    assert DigitsValue("0") == 0 by { assert "0"[..0] == ""; }
    assert DigitsValue("65535") == 65535 by {
      assert "65535"[..4] == "6553" && "6553"[..3] == "655" && "655"[..2] == "65" && "65"[..1] == "6" && "6"[..0] == "";
    }
    assert DigitsValue("65536") == 65536 by {
      assert "65536"[..4] == "6553" && "6553"[..3] == "655" && "655"[..2] == "65" && "65"[..1] == "6" && "6"[..0] == "";
    }
    assert !IsDigit("8o"[1]);
  }

  /** An email is judged by its first '@': "a@b@c.d" does not start with an address. */
  lemma EmailIsAnchored()
    ensures StartsWithEmail("me@mail.com")
    ensures !StartsWithEmail("a@b@c.d")
    ensures !StartsWithEmail("invalid.email")
  {
    var ok := "me@mail.com";
    assert Validation.EmailMatchAt(ok, 2, 7);
    assert forall k :: 0 <= k < 2 ==> ok[k] != '@';
    var bad := "a@b@c.d";
    forall i, j | 0 <= i < |bad| && 0 <= j < |bad| && Validation.EmailMatchAt(bad, i, j)
      ensures exists k :: 0 <= k < i && bad[k] == '@'
    {
      assert bad[1] == '@' && bad[3] == '@';
    }
    var plain := "invalid.email";
    forall i | 0 <= i < |plain|
      ensures plain[i] != '@'
    {
    }
  }
}
