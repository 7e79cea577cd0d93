// The field validator of backend/validation/validator.go: an accumulator of
// error messages per field, and one rule per kind of request field. Each rule
// is specified by a pure function giving the messages it adds and the value
// it returns; the methods of FieldValidator are proved to add exactly those.

module Validation {
  import opened Basics
  import Errors

  // ------------------------------------------------------------ accumulator

  /** The flat error list entries for `msgs` on `field` ("%s %s"). */
  function Flat(field: string, msgs: seq<string>): (r: seq<string>)
    ensures |r| == |msgs|
    ensures forall i :: 0 <= i < |msgs| ==> r[i] == field + " " + msgs[i]
  {
    seq(|msgs|, i requires 0 <= i < |msgs| => field + " " + msgs[i])
  }

  /** A field's message list so far (none when the field has no entry). */
  function FieldMessages(fe: map<string, seq<string>>, field: string): seq<string>
  {
    if field in fe then fe[field] else []
  }

  /** The per-field map after appending `msgs`, in order, to `field`'s list. */
  function Record(fe: map<string, seq<string>>, field: string, msgs: seq<string>): (r: map<string, seq<string>>)
    ensures msgs == [] ==> r == fe
    ensures msgs != [] ==> r.Keys == fe.Keys + {field} && r[field] == FieldMessages(fe, field) + msgs
    ensures forall f :: f != field ==> FieldMessages(r, f) == FieldMessages(fe, f)
  {
    if msgs == [] then fe else fe[field := FieldMessages(fe, field) + msgs]
  }

  /** The accumulator's invariant: no field has an empty list, and the flat
    * list is empty exactly when no field has an entry. */
  predicate WellFormed(errors: seq<string>, fe: map<string, seq<string>>) {
    (forall f :: f in fe ==> fe[f] != []) && (errors == [] <==> fe == map[])
  }

  /** Appending keeps the accumulator well formed. */
  lemma RecordWellFormed(errors: seq<string>, fe: map<string, seq<string>>, field: string, msgs: seq<string>)
    requires WellFormed(errors, fe)
    ensures WellFormed(errors + Flat(field, msgs), Record(fe, field, msgs))
  {
    if msgs != [] {
      assert field in Record(fe, field, msgs);
      assert (errors + Flat(field, msgs))[|errors|] == field + " " + msgs[0];
    }
  }

  /** Appending in two steps is appending the concatenation: errors only accumulate, in order. */
  lemma RecordTwice(errors: seq<string>, fe: map<string, seq<string>>, field: string, a: seq<string>, b: seq<string>)
    ensures errors + Flat(field, a) + Flat(field, b) == errors + Flat(field, a + b)
    ensures Record(Record(fe, field, a), field, b) == Record(fe, field, a + b)
  {
    FlatTwice(field, a, b);
    assert errors + Flat(field, a) + Flat(field, b) == errors + (Flat(field, a) + Flat(field, b));
    if a == [] {
      assert a + b == b;
    } else if b == [] {
      assert a + b == a;
    } else {
      var once := fe[field := FieldMessages(fe, field) + a];
      assert Record(fe, field, a) == once;
      assert FieldMessages(once, field) == FieldMessages(fe, field) + a;
      assert FieldMessages(fe, field) + a + b == FieldMessages(fe, field) + (a + b);
    }
  }

  lemma FlatTwice(field: string, a: seq<string>, b: seq<string>)
    ensures Flat(field, a) + Flat(field, b) == Flat(field, a + b)
  {
    var l, r := Flat(field, a) + Flat(field, b), Flat(field, a + b);
    assert |l| == |r|;
    forall i | 0 <= i < |l| ensures l[i] == r[i] {
      if i < |a| { assert l[i] == Flat(field, a)[i]; } else { assert l[i] == Flat(field, b)[i - |a|]; }
    }
  }

  // ------------------------------------------------------------ patterns

  /** `[^@]+@[^@]+\.[^@]+` matches inside `s` with its '@' at `i` and its '.' at `j`:
    * one non-'@' before the '@', a nonempty run without '@' up to the '.', and
    * one non-'@' after it. */
  predicate EmailMatchAt(s: string, i: int, j: int) {
    0 < i && i + 1 < j && j + 1 < |s| &&
    s[i - 1] != '@' && s[i] == '@' && s[j] == '.' && s[j + 1] != '@' &&
    forall k :: i < k < j ==> s[k] != '@'
  }

  /** Go's unanchored MatchString for `[^@]+@[^@]+\.[^@]+`. */
  predicate ContainsEmail(s: string) {
    exists i, j | 0 <= i < |s| && 0 <= j < |s| :: EmailMatchAt(s, i, j)
  }

  /** `^([0-9A-Fa-f]{2}[:-]){5}([0-9A-Fa-f]{2})$`: six hex pairs, each of the
    * five separators ':' or '-' independently. */
  predicate IsMacAddress(s: string) {
    |s| == 17 &&
    forall i :: 0 <= i < 17 ==> if i % 3 == 2 then s[i] == ':' || s[i] == '-' else IsHexDigit(s[i])
  }

  // ------------------------------------------------------------ rules

  /** Messages about the label of a free domain: the charset `^[\w-]+$`, then
    * length < 5, then length > 50, each reported on its own. */
  function LabelErrors(name: string): (r: seq<string>)
    ensures ("Invalid characters" in r) <==> !IsWordLabel(name)
    ensures ("Too short (< 5)" in r) <==> ByteLen(name) < 5
    ensures ("Too long (> 50)" in r) <==> ByteLen(name) > 50
    ensures r == [] <==> IsWordLabel(name) && 5 <= ByteLen(name) <= 50
    ensures |r| <= 2
    ensures forall m :: m in r ==> m in ["Invalid characters", "Too short (< 5)", "Too long (> 50)"]
  {
    (if IsWordLabel(name) then [] else ["Invalid characters"]) +
    (if ByteLen(name) < 5 then ["Too short (< 5)"] else []) +
    (if ByteLen(name) > 50 then ["Too long (> 50)"] else [])
  }

  /** Messages of FieldValidator.Domain. */
  function DomainErrors(domain: Option<string>, mainDomain: string): (r: seq<string>)
    ensures domain.None? ==> r == ["Missing"]
    ensures domain == Some(mainDomain) ==> r == ["Invalid domain"]
    ensures domain.Some? && domain.value != mainDomain && !HasSuffix(domain.value, "." + mainDomain) ==> r == []
    ensures domain.Some? && domain.value != mainDomain && HasSuffix(domain.value, "." + mainDomain) ==>
      r == LabelErrors(TextBefore(domain.value, "." + mainDomain))
  {
    match domain
    case None => ["Missing"]
    case Some(d) =>
      if d == mainDomain then ["Invalid domain"]
      else if HasSuffix(d, "." + mainDomain) then LabelErrors(TextBefore(d, "." + mainDomain))
      else []
  }

  /** Messages and result of FieldValidator.Email. */
  function EmailRule(email: Option<string>): (r: (seq<string>, Option<string>))
    ensures email.None? ==> r == (["Missing"], None)
    ensures r.1.Some? <==> r.0 == []
    ensures r.1.Some? <==> email.Some? && ContainsEmail(email.value)
    ensures r.1.Some? ==> r.1.value == ToLower(email.value)
    ensures email.Some? && !ContainsEmail(email.value) ==> r.0 == ["Not valid email"]
  {
    match email
    case None => (["Missing"], None)
    case Some(e) => if ContainsEmail(e) then ([], Some(ToLower(e))) else (["Not valid email"], None)
  }

  /** Messages of FieldValidator.Password: only presence is checked. */
  function PasswordErrors(password: Option<string>): (r: seq<string>)
    ensures r == [] <==> password.Some?
    ensures |r| <= 1
  {
    if password.None? then ["Missing"] else []
  }

  /** Messages of FieldValidator.NewPassword (the password is returned whatever they are). */
  function NewPasswordErrors(password: Option<string>): (r: seq<string>)
    ensures password.None? ==> r == ["Missing"]
    ensures password.Some? && ByteLen(password.value) < 7 ==> r == ["Should be 7 or more characters"]
    ensures r == [] <==> password.Some? && ByteLen(password.value) >= 7
  {
    PasswordErrors(password) +
    (if password.Some? && ByteLen(password.value) < 7 then ["Should be 7 or more characters"] else [])
  }

  /** Messages and result of FieldValidator.WebProtocol. */
  function WebProtocolRule(protocol: Option<string>): (r: (seq<string>, Option<string>))
    ensures protocol.None? ==> r == (["Missing"], None)
    ensures r.1.Some? <==> r.0 == []
    ensures r.1.Some? <==> protocol.Some? && ToLower(protocol.value) in {"http", "https"}
    ensures r.1.Some? ==> r.1.value == ToLower(protocol.value)
    ensures protocol.Some? && r.1.None? ==> r.0 == ["Protocol should be either http or https"]
  {
    match protocol
    case None => (["Missing"], None)
    case Some(p) =>
      var lower := ToLower(p);
      if lower != "http" && lower != "https" then (["Protocol should be either http or https"], None)
      else ([], Some(lower))
  }

  /** Messages and result of validatePort (web_port and web_local_port). */
  function PortRule(port: Option<int>): (r: (seq<string>, Option<int>))
    ensures port.None? ==> r == (["Missing"], None)
    ensures r.1.Some? <==> r.0 == []
    ensures r.1.Some? <==> port.Some? && 1 <= port.value <= 65535
    ensures r.1.Some? ==> r.1 == port
    ensures port.Some? && r.1.None? ==> r.0 == ["Should be between 1 and 65535"]
  {
    match port
    case None => (["Missing"], None)
    case Some(p) => if p < 1 || p > 65535 then (["Should be between 1 and 65535"], None) else ([], port)
  }

  /** Messages of the presence-only rules (Token, DeviceName, DeviceTitle). */
  function RequiredErrors<T>(value: Option<T>): (r: seq<string>)
    ensures r == [] <==> value.Some?
    ensures value.None? ==> r == ["Missing"]
  {
    if value.None? then ["Missing"] else []
  }

  /** Messages of checkIpAddress. */
  function IpSyntaxErrors(ip: string, parse: IpParser): (r: seq<string>)
    ensures r == [] <==> parse(ip) != Invalid
    ensures r != [] ==> r == ["Invalid IP address"]
  {
    if parse(ip) == Invalid then ["Invalid IP address"] else []
  }

  /** Messages and result of FieldValidator.Ip: the request's ip wins over the default. */
  function IpRule(requestIp: Option<string>, defaultIp: Option<string>, parse: IpParser): (r: (seq<string>, Option<string>))
    ensures r.1 == if requestIp.Some? then requestIp else defaultIp
    ensures r.1.None? ==> r.0 == ["Missing"]
    ensures r.0 == [] <==> r.1.Some? && parse(r.1.value) != Invalid
    ensures |r.0| == 1 || r.0 == []
  {
    var ip := if requestIp.Some? then requestIp else defaultIp;
    match ip
    case None => (["Missing"], None)
    case Some(a) => (IpSyntaxErrors(a, parse), ip)
  }

  /** Messages of FieldValidator.LocalIp: an absent local ip is fine. */
  function LocalIpErrors(localIp: Option<string>, parse: IpParser): (r: seq<string>)
    ensures localIp.None? ==> r == []
    ensures r == [] <==> localIp.None? || parse(localIp.value) != Invalid
    ensures |r| <= 1
  {
    match localIp
    case None => []
    case Some(a) => IpSyntaxErrors(a, parse)
  }

  /** Messages and result of FieldValidator.DeviceMacAddress. */
  function MacRule(mac: Option<string>): (r: (seq<string>, Option<string>))
    ensures mac.None? ==> r == (["Missing"], None)
    ensures r.1.Some? <==> r.0 == []
    ensures r.1.Some? <==> mac.Some? && IsMacAddress(mac.value)
    ensures r.1.Some? ==> r.1 == mac
    ensures mac.Some? && r.1.None? ==> r.0 == ["MAC address has wrong format"]
  {
    match mac
    case None => (["Missing"], None)
    case Some(m) => if IsMacAddress(m) then ([], mac) else (["MAC address has wrong format"], None)
  }

  // ------------------------------------------------------------ the validator

  class FieldValidator {
    var errors: seq<string>
    var fieldsErrors: map<string, seq<string>>

    ghost predicate Valid()
      reads this
    {
      WellFormed(errors, fieldsErrors)
    }

    /** Exactly `msgs` were appended to `field`, in order, and nothing else changed. */
    twostate predicate Added(field: string, msgs: seq<string>)
      reads this
    {
      errors == old(errors) + Flat(field, msgs) &&
      fieldsErrors == Record(old(fieldsErrors), field, msgs)
    }

    /** validation.New(): no errors yet. */
    constructor ()
      ensures Valid() && errors == [] && fieldsErrors == map[]
    {
      errors := [];
      fieldsErrors := map[];
    }

    /** One entry per field that has messages, carrying that field's list
      * (Go's map iteration order is unspecified, so the order is not fixed). */
    method ToParametersMessages() returns (messages: seq<Errors.ParameterMessages>)
      ensures forall i :: 0 <= i < |messages| ==>
        messages[i].parameter in fieldsErrors && messages[i].messages == fieldsErrors[messages[i].parameter]
      ensures forall i, j :: 0 <= i < j < |messages| ==> messages[i].parameter != messages[j].parameter
      ensures forall f :: f in fieldsErrors ==> exists i :: 0 <= i < |messages| && messages[i].parameter == f
    {
      messages := [];
      var pending := fieldsErrors.Keys;
      while pending != {}
        invariant pending <= fieldsErrors.Keys
        invariant forall i :: 0 <= i < |messages| ==>
          messages[i].parameter in fieldsErrors.Keys - pending && messages[i].messages == fieldsErrors[messages[i].parameter]
        invariant forall i, j :: 0 <= i < j < |messages| ==> messages[i].parameter != messages[j].parameter
        invariant forall f :: f in fieldsErrors.Keys - pending ==> exists i :: 0 <= i < |messages| && messages[i].parameter == f
        decreases |pending|
      {
        var k :| k in pending;
        ghost var before, pendingBefore := messages, pending;
        messages := messages + [Errors.ParameterMessages(k, fieldsErrors[k])];
        pending := pending - {k};
        forall f | f in fieldsErrors.Keys - pending
          ensures exists i :: 0 <= i < |messages| && messages[i].parameter == f
        {
          if f == k {
            assert messages[|before|].parameter == f;
          } else {
            assert f in fieldsErrors.Keys - pendingBefore;
            var i :| 0 <= i < |before| && before[i].parameter == f;
            assert messages[i] == before[i];
          }
        }
      }
      assert fieldsErrors.Keys - pending == fieldsErrors.Keys;
    }

    /** True iff some field has an error, i.e. iff any error was added. */
    function HasErrors(): (r: bool)
      reads this
      requires Valid()
      ensures r <==> errors != []
      ensures r <==> exists f :: f in fieldsErrors && fieldsErrors[f] != []
    {
      |fieldsErrors| > 0
    }

    /** addFieldError: append "field error" to the flat list and `error` to the field's list. */
    method AddFieldError(field: string, error: string)
      requires Valid()
      modifies this
      ensures Valid() && Added(field, [error])
    {
      RecordWellFormed(errors, fieldsErrors, field, [error]);
      assert Flat(field, [error]) == [field + " " + error];
      errors := errors + [field + " " + error];
      var newErrors := [error];
      if field in fieldsErrors {
        newErrors := fieldsErrors[field] + [error];
      }
      assert newErrors == FieldMessages(fieldsErrors, field) + [error];
      fieldsErrors := fieldsErrors[field := newErrors];
    }

    method Domain(domain: Option<string>, field: string, mainDomain: string)
      requires Valid()
      modifies this
      ensures Valid() && Added(field, DomainErrors(domain, mainDomain))
    {
      if domain.None? {
        AddFieldError(field, "Missing");
      } else if domain.value == mainDomain {
        AddFieldError(field, "Invalid domain");
      } else {
        var suffix := "." + mainDomain;
        if HasSuffix(domain.value, suffix) {
          var subDomain := TextBefore(domain.value, suffix);
          Label(subDomain, field);
        }
      }
    }

    /** The rules Domain applies to the label in front of the main domain. */
    method Label(subDomain: string, field: string)
      requires Valid()
      modifies this
      ensures Valid() && Added(field, LabelErrors(subDomain))
    {
      ghost var errors0, fields0 := errors, fieldsErrors;
      ghost var invalid := if IsWordLabel(subDomain) then [] else ["Invalid characters"];
      ghost var short := if ByteLen(subDomain) < 5 then ["Too short (< 5)"] else [];
      ghost var long := if ByteLen(subDomain) > 50 then ["Too long (> 50)"] else [];
      AddWhen(!IsWordLabel(subDomain), field, "Invalid characters");
      assert errors == errors0 + Flat(field, invalid) && fieldsErrors == Record(fields0, field, invalid);
      RecordTwice(errors0, fields0, field, invalid, short);
      AddWhen(ByteLen(subDomain) < 5, field, "Too short (< 5)");
      assert errors == errors0 + Flat(field, invalid + short) && fieldsErrors == Record(fields0, field, invalid + short);
      RecordTwice(errors0, fields0, field, invalid + short, long);
      AddWhen(ByteLen(subDomain) > 50, field, "Too long (> 50)");
    }

    /** `if cond { addFieldError(field, error) }`. */
    method AddWhen(cond: bool, field: string, error: string)
      requires Valid()
      modifies this
      ensures Valid() && Added(field, if cond then [error] else [])
    {
      if cond {
        AddFieldError(field, error);
      }
    }

    method Email(email: Option<string>) returns (r: Option<string>)
      requires Valid()
      modifies this
      ensures Valid() && Added("email", EmailRule(email).0) && r == EmailRule(email).1
    {
      r := None;
      if email.Some? {
        if !ContainsEmail(email.value) {
          AddFieldError("email", "Not valid email");
        } else {
          var lower := ToLower(email.value);
          return Some(lower);
        }
      } else {
        AddFieldError("email", "Missing");
      }
    }

    method NewPassword(newPassword: Option<string>) returns (r: Option<string>)
      requires Valid()
      modifies this
      ensures Valid() && Added("password", NewPasswordErrors(newPassword)) && r == newPassword
    {
      ghost var errors0, fields0 := errors, fieldsErrors;
      var password := Password(newPassword);
      if password.Some? {
        if ByteLen(password.value) < 7 {
          RecordTwice(errors0, fields0, "password", PasswordErrors(newPassword), ["Should be 7 or more characters"]);
          AddFieldError("password", "Should be 7 or more characters");
        }
      }
      return password;
    }

    method Password(password: Option<string>) returns (r: Option<string>)
      requires Valid()
      modifies this
      ensures Valid() && Added("password", PasswordErrors(password)) && r == password
    {
      if password.None? {
        AddFieldError("password", "Missing");
      }
      return password;
    }

    method WebProtocol(webProtocol: Option<string>) returns (r: Option<string>)
      requires Valid()
      modifies this
      ensures Valid() && Added("web_protocol", WebProtocolRule(webProtocol).0) && r == WebProtocolRule(webProtocol).1
    {
      if webProtocol.None? {
        AddFieldError("web_protocol", "Missing");
        return None;
      }
      var protocolLower := ToLower(webProtocol.value);
      if protocolLower != "http" && protocolLower != "https" {
        AddFieldError("web_protocol", "Protocol should be either http or https");
        return None;
      }
      return Some(protocolLower);
    }

    method WebLocalPort(webLocalPort: Option<int>) returns (r: Option<int>)
      requires Valid()
      modifies this
      ensures Valid() && Added("web_local_port", PortRule(webLocalPort).0) && r == PortRule(webLocalPort).1
    {
      r := ValidatePort(webLocalPort, "web_local_port");
    }

    method WebPort(webPort: Option<int>) returns (r: Option<int>)
      requires Valid()
      modifies this
      ensures Valid() && Added("web_port", PortRule(webPort).0) && r == PortRule(webPort).1
    {
      r := ValidatePort(webPort, "web_port");
    }

    method ValidatePort(port: Option<int>, field: string) returns (r: Option<int>)
      requires Valid()
      modifies this
      ensures Valid() && Added(field, PortRule(port).0) && r == PortRule(port).1
    {
      if port.None? {
        AddFieldError(field, "Missing");
        return None;
      }
      if port.value < 1 || port.value > 65535 {
        AddFieldError(field, "Should be between 1 and 65535");
        return None;
      }
      return port;
    }

    method Token(token: Option<string>)
      requires Valid()
      modifies this
      ensures Valid() && Added("token", RequiredErrors(token))
    {
      if token.None? {
        AddFieldError("token", "Missing");
      }
    }

    method DeviceName(deviceName: Option<string>)
      requires Valid()
      modifies this
      ensures Valid() && Added("device_name", RequiredErrors(deviceName))
    {
      if deviceName.None? {
        AddFieldError("device_name", "Missing");
      }
    }

    method DeviceTitle(deviceTitle: Option<string>)
      requires Valid()
      modifies this
      ensures Valid() && Added("device_title", RequiredErrors(deviceTitle))
    {
      if deviceTitle.None? {
        AddFieldError("device_title", "Missing");
      }
    }

    method CheckIpAddress(name: string, ip: string, parse: IpParser)
      requires Valid()
      modifies this
      ensures Valid() && Added(name, IpSyntaxErrors(ip, parse))
    {
      if parse(ip) == Invalid {
        AddFieldError(name, "Invalid IP address");
      }
    }

    method Ip(requestIp: Option<string>, defaultIp: Option<string>, parse: IpParser) returns (r: Option<string>)
      requires Valid()
      modifies this
      ensures Valid() && Added("ip", IpRule(requestIp, defaultIp, parse).0) && r == IpRule(requestIp, defaultIp, parse).1
    {
      var ip := defaultIp;
      if requestIp.Some? {
        ip := requestIp;
      }
      if ip.None? {
        AddFieldError("ip", "Missing");
        return None;
      }
      CheckIpAddress("ip", ip.value, parse);
      return ip;
    }

    method LocalIp(localIp: Option<string>, parse: IpParser)
      requires Valid()
      modifies this
      ensures Valid() && Added("local_ip", LocalIpErrors(localIp, parse))
    {
      if localIp.Some? {
        CheckIpAddress("local_ip", localIp.value, parse);
      }
    }

    method DeviceMacAddress(deviceMacAddress: Option<string>) returns (r: Option<string>)
      requires Valid()
      modifies this
      ensures Valid() && Added("device_mac_address", MacRule(deviceMacAddress).0) && r == MacRule(deviceMacAddress).1
    {
      var field := "device_mac_address";
      if deviceMacAddress.None? {
        AddFieldError(field, "Missing");
        return None;
      }
      if !IsMacAddress(deviceMacAddress.value) {
        AddFieldError(field, "MAC address has wrong format");
        return None;
      }
      return deviceMacAddress;
    }
  }

  // ------------------------------------------------------------ examples

  /** The free-domain cases of the validator's unit tests: an empty label
    * breaks two rules, a short one breaks one. */
  lemma EmptyLabelExample()
    ensures DomainErrors(Some(".syncloud.it"), "syncloud.it") == ["Invalid characters", "Too short (< 5)"]
  {
    var sep := ".syncloud.it";
    assert OccursAt(sep, sep, 0);
    assert TextBefore(sep, sep) == "";
  }

  /** The label in front of ".syncloud.it" in "use.syncloud.it". */
  lemma ShortLabelText()
    ensures TextBefore("use.syncloud.it", ".syncloud.it") == "use"
  {
    var sep, s := ".syncloud.it", "use.syncloud.it";
    assert OccursAt(s, sep, 3);
    forall k | 0 <= k < 3 ensures !OccursAt(s, sep, k) { NoOccurrenceAt(s, sep, k, 0); }
    TextBeforeFirst(s, sep, 3);
  }

  /** "use.syncloud.it" is a subdomain of "syncloud.it" other than itself. */
  lemma ShortLabelIsSubdomain()
    ensures "use.syncloud.it" != "syncloud.it" && "." + "syncloud.it" == ".syncloud.it"
    ensures HasSuffix("use.syncloud.it", ".syncloud.it")
  {
    var sep, s := ".syncloud.it", "use.syncloud.it";
    assert |s| != |"syncloud.it"|;
    assert s[|s| - |sep|..] == sep;
  }

  lemma ShortLabelExample()
    ensures DomainErrors(Some("use.syncloud.it"), "syncloud.it") == ["Too short (< 5)"]
  {
    ShortLabelIsSubdomain();
    ShortLabelText();
    assert IsWordLabel("use");
  }

  /** Lengths are Go's byte counts: four two-byte characters make a password
    * of eight bytes, which is long enough. */
  lemma MultiBytePasswordAccepted()
    ensures ByteLen("\U{E9}\U{E9}\U{E9}\U{E9}") == 8
    ensures NewPasswordErrors(Some("\U{E9}\U{E9}\U{E9}\U{E9}")) == []
  {
  }

  /** A label of three two-byte characters is six bytes: its characters are
    * refused, but it is not too short. */
  lemma MultiByteLabelErrors()
    ensures LabelErrors("\U{E9}\U{E9}\U{E9}") == ["Invalid characters"]
  {
  }

  /** The main domain itself is refused; a premium domain passes; nil is missing. */
  lemma MainAndPremiumExamples()
    ensures DomainErrors(Some("syncloud.it"), "syncloud.it") == ["Invalid domain"]
    ensures DomainErrors(Some("example.com"), "syncloud.it") == []
    ensures DomainErrors(None, "syncloud.it") == ["Missing"]
  {
  }

  /** Two rules reporting on different fields add up: the aggregated-errors test. */
  lemma ErrorsAggregate(errors: seq<string>, fe: map<string, seq<string>>)
    requires errors == [] && fe == map[]
    ensures |errors + Flat("domain", DomainErrors(None, "syncloud.it")) + Flat("password", PasswordErrors(None))| == 2
  {
  }

  /** A well-formed MAC address is accepted; one of the wrong shape is refused. */
  lemma MacExamples()
    ensures MacRule(Some("11:22:33:44:55:66")) == ([], Some("11:22:33:44:55:66"))
    ensures MacRule(Some("11-22:33-44:55-66")).0 == []
    ensures MacRule(Some("wrong_mac")).0 == ["MAC address has wrong format"]
  {
  }

  /** "a@b.c" is an email, returned as it is since it has no capitals. */
  lemma EmailExamples()
    ensures EmailRule(Some("a@b.c")) == ([], Some("a@b.c"))
    ensures EmailRule(Some("invalid.email")) == (["Not valid email"], None)
  {
    assert EmailMatchAt("a@b.c", 1, 3);
    ToLowerUnchanged("a@b.c");
    var s := "invalid.email";
    forall i | 0 <= i < |s| ensures s[i] != '@' { }
  }
}
