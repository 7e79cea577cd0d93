// The older twin of the field validator, backend/service/validator.go, used
// by the legacy service of backend/service/service.go. Its accumulator and its
// email, password, protocol, port, token, device, ip and MAC rules are the
// same code as the newer validator: the methods below are specified by the
// same rule functions, so the two agree on every input. Only the user-domain
// and custom-domain rules are its own.

module ServiceValidation {
  import opened Basics
  import Errors
  import V = Validation

  /** `[a-zA-Z0-9][a-zA-Z0-9-]{1,61}[a-zA-Z0-9]`: 3 to 63 characters,
    * alphanumeric at both ends, alphanumerics or '-' inside. */
  predicate IsHostLabel(s: string) {
    3 <= |s| <= 63 && IsAlnum(s[0]) && IsAlnum(s[|s| - 1]) &&
    forall k :: 0 < k < |s| - 1 ==> IsAlnum(s[k]) || s[k] == '-'
  }

  /** `[a-zA-Z]{2,}`: two or more ASCII letters. */
  predicate IsTopLevel(s: string) {
    |s| >= 2 && forall k :: 0 <= k < |s| ==> IsAsciiLetter(s[k])
  }

  /** `^<label>\.<top level>$` with the '.' at index k. */
  predicate SplitsAsDomainAt(s: string, k: int) {
    0 <= k < |s| && s[k] == '.' && IsHostLabel(s[..k]) && IsTopLevel(s[k + 1..])
  }

  /** The custom-domain pattern of newDomain. */
  predicate IsCustomDomainName(s: string) {
    exists k | 0 <= k < |s| :: SplitsAsDomainAt(s, k)
  }

  /** Neither part of a custom domain name contains a '.', so the pattern
    * admits exactly one dot: "a.b.example.com" is refused. */
  lemma CustomDomainHasOneDot(s: string, k: int, m: int)
    requires SplitsAsDomainAt(s, k)
    requires 0 <= m < |s| && s[m] == '.'
    ensures m == k
  {
  }

  /** Messages of newUserDomain: "Missing" for nil, otherwise each failed
    * label rule of the free-domain check, independently. */
  function NewUserDomainErrors(userDomain: Option<string>): (r: seq<string>)
    ensures userDomain.None? ==> r == ["Missing"]
    ensures userDomain.Some? ==> r == V.LabelErrors(userDomain.value)
    ensures r == [] <==> userDomain.Some? && IsWordLabel(userDomain.value) && 5 <= ByteLen(userDomain.value) <= 50
  {
    V.RequiredErrors(userDomain) + (if userDomain.Some? then V.LabelErrors(userDomain.value) else [])
  }

  /** Messages and result of newDomain. */
  function NewDomainRule(domain: Option<string>, ourDomain: string): (r: (seq<string>, Option<string>))
    ensures domain.None? ==> r == (["Missing"], None)
    ensures domain.Some? ==> r.1 == domain
    ensures domain.Some? ==> (("Invalid domain name" in r.0) <==> !IsCustomDomainName(domain.value))
    ensures domain.Some? ==> (("Cannot use Syncloud domain" in r.0) <==> domain.value == ourDomain)
    ensures r.0 == [] <==> domain.Some? && IsCustomDomainName(domain.value) && domain.value != ourDomain
    ensures |r.0| <= 2
  {
    match domain
    case None => (["Missing"], None)
    case Some(d) =>
      ((if IsCustomDomainName(d) then [] else ["Invalid domain name"]) +
       (if d == ourDomain then ["Cannot use Syncloud domain"] else []), domain)
  }

  lemma CustomDomainAccepted()
    ensures NewDomainRule(Some("example.com"), "syncloud.it") == ([], Some("example.com"))
  {
    assert SplitsAsDomainAt("example.com", 7);
  }

  lemma OwnDomainRefused()
    ensures NewDomainRule(Some("syncloud.it"), "syncloud.it") == (["Cannot use Syncloud domain"], Some("syncloud.it"))
  {
    assert SplitsAsDomainAt("syncloud.it", 8);
    var r := NewDomainRule(Some("syncloud.it"), "syncloud.it");
    assert r.0 == [] + ["Cannot use Syncloud domain"];
    assert r.0 == ["Cannot use Syncloud domain"];
  }

  lemma ShortCustomDomainRefused()
    ensures NewDomainRule(Some("ab.com"), "syncloud.it").0 == ["Invalid domain name"]
  {
    var s := "ab.com";
    forall k | 0 <= k < |s| ensures !SplitsAsDomainAt(s, k) {
      if s[k] == '.' { assert k == 2; }
    }
  }

  class Validator {
    var errors: seq<string>
    var fieldsErrors: map<string, seq<string>>

    ghost predicate Valid()
      reads this
    {
      V.WellFormed(errors, fieldsErrors)
    }

    /** Exactly `msgs` were appended to `field`, in order, and nothing else changed. */
    twostate predicate Added(field: string, msgs: seq<string>)
      reads this
    {
      errors == old(errors) + V.Flat(field, msgs) &&
      fieldsErrors == V.Record(old(fieldsErrors), field, msgs)
    }

    /** NewValidator(): no errors yet. */
    constructor ()
      ensures Valid() && errors == [] && fieldsErrors == map[]
    {
      errors := [];
      fieldsErrors := map[];
    }

    /** One entry per field that has messages, carrying that field's list, in
      * an unspecified order. */
    method ToParametersMessages() returns (messages: seq<Errors.ParameterMessages>)
      ensures forall i :: 0 <= i < |messages| ==>
        messages[i].parameter in fieldsErrors && messages[i].messages == fieldsErrors[messages[i].parameter]
      ensures forall i, j :: 0 <= i < j < |messages| ==> messages[i].parameter != messages[j].parameter
      ensures forall f :: f in fieldsErrors ==> exists i :: 0 <= i < |messages| && messages[i].parameter == f
    {
      messages := [];
      var pending := fieldsErrors.Keys;
      while pending != {}
        invariant pending <= fieldsErrors.Keys
        invariant forall i :: 0 <= i < |messages| ==>
          messages[i].parameter in fieldsErrors.Keys - pending && messages[i].messages == fieldsErrors[messages[i].parameter]
        invariant forall i, j :: 0 <= i < j < |messages| ==> messages[i].parameter != messages[j].parameter
        invariant forall f :: f in fieldsErrors.Keys - pending ==> exists i :: 0 <= i < |messages| && messages[i].parameter == f
        decreases |pending|
      {
        var k :| k in pending;
        ghost var before, pendingBefore := messages, pending;
        messages := messages + [Errors.ParameterMessages(k, fieldsErrors[k])];
        pending := pending - {k};
        forall f | f in fieldsErrors.Keys - pending
          ensures exists i :: 0 <= i < |messages| && messages[i].parameter == f
        {
          if f == k {
            assert messages[|before|].parameter == f;
          } else {
            assert f in fieldsErrors.Keys - pendingBefore;
            var i :| 0 <= i < |before| && before[i].parameter == f;
            assert messages[i] == before[i];
          }
        }
      }
      assert fieldsErrors.Keys - pending == fieldsErrors.Keys;
    }

    /** True iff some field has an error, i.e. iff any error was added. */
    function HasErrors(): (r: bool)
      reads this
      requires Valid()
      ensures r <==> errors != []
      ensures r <==> exists f :: f in fieldsErrors && fieldsErrors[f] != []
    {
      |fieldsErrors| > 0
    }

    /** addFieldError: append "field error" to the flat list and `error` to the field's list. */
    method AddFieldError(field: string, error: string)
      requires Valid()
      modifies this
      ensures Valid() && Added(field, [error])
    {
      V.RecordWellFormed(errors, fieldsErrors, field, [error]);
      assert V.Flat(field, [error]) == [field + " " + error];
      errors := errors + [field + " " + error];
      var newErrors := [error];
      if field in fieldsErrors {
        newErrors := fieldsErrors[field] + [error];
      }
      assert newErrors == V.FieldMessages(fieldsErrors, field) + [error];
      fieldsErrors := fieldsErrors[field := newErrors];
    }

    method NewUserDomain(userDomain: Option<string>) returns (r: Option<string>)
      requires Valid()
      modifies this
      ensures Valid() && Added("user_domain", NewUserDomainErrors(userDomain)) && r == userDomain
    {
      if userDomain.None? {
        UserDomain(userDomain);
        return userDomain;
      }
      UserDomain(userDomain);
      assert errors == old(errors) && fieldsErrors == old(fieldsErrors);
      Label(userDomain.value);
      return userDomain;
    }

    /** The label rules NewUserDomain applies to a present user domain. */
    method Label(userDomain: string)
      requires Valid()
      modifies this
      ensures Valid() && Added("user_domain", V.LabelErrors(userDomain))
    {
      ghost var errors0, fields0 := errors, fieldsErrors;
      ghost var invalid := if IsWordLabel(userDomain) then [] else ["Invalid characters"];
      ghost var short := if ByteLen(userDomain) < 5 then ["Too short (< 5)"] else [];
      ghost var long := if ByteLen(userDomain) > 50 then ["Too long (> 50)"] else [];
      AddWhen(!IsWordLabel(userDomain), "user_domain", "Invalid characters");
      assert errors == errors0 + V.Flat("user_domain", invalid) && fieldsErrors == V.Record(fields0, "user_domain", invalid);
      V.RecordTwice(errors0, fields0, "user_domain", invalid, short);
      AddWhen(ByteLen(userDomain) < 5, "user_domain", "Too short (< 5)");
      assert errors == errors0 + V.Flat("user_domain", invalid + short) &&
             fieldsErrors == V.Record(fields0, "user_domain", invalid + short);
      V.RecordTwice(errors0, fields0, "user_domain", invalid + short, long);
      AddWhen(ByteLen(userDomain) > 50, "user_domain", "Too long (> 50)");
    }

    /** `if cond { addFieldError(field, error) }`. */
    method AddWhen(cond: bool, field: string, error: string)
      requires Valid()
      modifies this
      ensures Valid() && Added(field, if cond then [error] else [])
    {
      if cond {
        AddFieldError(field, error);
      }
    }

    method NewDomain(domain: Option<string>, ourDomain: string) returns (r: Option<string>)
      requires Valid()
      modifies this
      ensures Valid() && Added("domain", NewDomainRule(domain, ourDomain).0) && r == NewDomainRule(domain, ourDomain).1
    {
      if domain.None? {
        AddFieldError("domain", "Missing");
        return None;
      }
      ghost var errors0, fields0 := errors, fieldsErrors;
      ghost var added: seq<string> := [];
      if !IsCustomDomainName(domain.value) {
        AddFieldError("domain", "Invalid domain name");
        added := ["Invalid domain name"];
      }
      if domain.value == ourDomain {
        V.RecordTwice(errors0, fields0, "domain", added, ["Cannot use Syncloud domain"]);
        AddFieldError("domain", "Cannot use Syncloud domain");
        added := added + ["Cannot use Syncloud domain"];
      }
      assert added == NewDomainRule(domain, ourDomain).0;
      return domain;
    }

    method UserDomain(userDomain: Option<string>)
      requires Valid()
      modifies this
      ensures Valid() && Added("user_domain", V.RequiredErrors(userDomain))
    {
      if userDomain.None? {
        AddFieldError("user_domain", "Missing");
      }
    }

    method Email(email: Option<string>) returns (r: Option<string>)
      requires Valid()
      modifies this
      ensures Valid() && Added("email", V.EmailRule(email).0) && r == V.EmailRule(email).1
    {
      r := None;
      if email.Some? {
        if !V.ContainsEmail(email.value) {
          AddFieldError("email", "Not valid email");
        } else {
          var lower := ToLower(email.value);
          return Some(lower);
        }
      } else {
        AddFieldError("email", "Missing");
      }
    }

    method NewPassword(newPassword: Option<string>) returns (r: Option<string>)
      requires Valid()
      modifies this
      ensures Valid() && Added("password", V.NewPasswordErrors(newPassword)) && r == newPassword
    {
      ghost var errors0, fields0 := errors, fieldsErrors;
      var password := Password(newPassword);
      if password.Some? {
        if ByteLen(password.value) < 7 {
          V.RecordTwice(errors0, fields0, "password", V.PasswordErrors(newPassword), ["Should be 7 or more characters"]);
          AddFieldError("password", "Should be 7 or more characters");
        }
      }
      return password;
    }

    method Password(password: Option<string>) returns (r: Option<string>)
      requires Valid()
      modifies this
      ensures Valid() && Added("password", V.PasswordErrors(password)) && r == password
    {
      if password.None? {
        AddFieldError("password", "Missing");
      }
      return password;
    }

    method WebProtocol(webProtocol: Option<string>) returns (r: Option<string>)
      requires Valid()
      modifies this
      ensures Valid() && Added("web_protocol", V.WebProtocolRule(webProtocol).0) && r == V.WebProtocolRule(webProtocol).1
    {
      if webProtocol.None? {
        AddFieldError("web_protocol", "Missing");
        return None;
      }
      var protocolLower := ToLower(webProtocol.value);
      if protocolLower != "http" && protocolLower != "https" {
        AddFieldError("web_protocol", "Protocol should be either http or https");
        return None;
      }
      return Some(protocolLower);
    }

    method WebLocalPort(webLocalPort: Option<int>) returns (r: Option<int>)
      requires Valid()
      modifies this
      ensures Valid() && Added("web_local_port", V.PortRule(webLocalPort).0) && r == V.PortRule(webLocalPort).1
    {
      r := ValidatePort(webLocalPort, "web_local_port");
    }

    method WebPort(webPort: Option<int>) returns (r: Option<int>)
      requires Valid()
      modifies this
      ensures Valid() && Added("web_port", V.PortRule(webPort).0) && r == V.PortRule(webPort).1
    {
      r := ValidatePort(webPort, "web_port");
    }

    method ValidatePort(port: Option<int>, field: string) returns (r: Option<int>)
      requires Valid()
      modifies this
      ensures Valid() && Added(field, V.PortRule(port).0) && r == V.PortRule(port).1
    {
      if port.None? {
        AddFieldError(field, "Missing");
        return None;
      }
      if port.value < 1 || port.value > 65535 {
        AddFieldError(field, "Should be between 1 and 65535");
        return None;
      }
      return port;
    }

    method Token(token: Option<string>)
      requires Valid()
      modifies this
      ensures Valid() && Added("token", V.RequiredErrors(token))
    {
      if token.None? {
        AddFieldError("token", "Missing");
      }
    }

    method DeviceName(deviceName: Option<string>)
      requires Valid()
      modifies this
      ensures Valid() && Added("device_name", V.RequiredErrors(deviceName))
    {
      if deviceName.None? {
        AddFieldError("device_name", "Missing");
      }
    }

    method DeviceTitle(deviceTitle: Option<string>)
      requires Valid()
      modifies this
      ensures Valid() && Added("device_title", V.RequiredErrors(deviceTitle))
    {
      if deviceTitle.None? {
        AddFieldError("device_title", "Missing");
      }
    }

    method CheckIpAddress(name: string, ip: string, parse: IpParser)
      requires Valid()
      modifies this
      ensures Valid() && Added(name, V.IpSyntaxErrors(ip, parse))
    {
      if parse(ip) == Invalid {
        AddFieldError(name, "Invalid IP address");
      }
    }

    method Ip(requestIp: Option<string>, defaultIp: Option<string>, parse: IpParser) returns (r: Option<string>)
      requires Valid()
      modifies this
      ensures Valid() && Added("ip", V.IpRule(requestIp, defaultIp, parse).0) && r == V.IpRule(requestIp, defaultIp, parse).1
    {
      var ip := defaultIp;
      if requestIp.Some? {
        ip := requestIp;
      }
      if ip.None? {
        AddFieldError("ip", "Missing");
        return None;
      }
      CheckIpAddress("ip", ip.value, parse);
      return ip;
    }

    method LocalIp(localIp: Option<string>, parse: IpParser)
      requires Valid()
      modifies this
      ensures Valid() && Added("local_ip", V.LocalIpErrors(localIp, parse))
    {
      if localIp.Some? {
        CheckIpAddress("local_ip", localIp.value, parse);
      }
    }

    method DeviceMacAddress(deviceMacAddress: Option<string>) returns (r: Option<string>)
      requires Valid()
      modifies this
      ensures Valid() && Added("device_mac_address", V.MacRule(deviceMacAddress).0) && r == V.MacRule(deviceMacAddress).1
    {
      var field := "device_mac_address";
      if deviceMacAddress.None? {
        AddFieldError(field, "Missing");
        return None;
      }
      if !V.IsMacAddress(deviceMacAddress.value) {
        AddFieldError(field, "MAC address has wrong format");
        return None;
      }
      return deviceMacAddress;
    }
  }
}
