// The legacy account manager (redirect/accountmanager.py): the HTTP answer
// of each account request, decided from the validator's result and the
// answers of the database, the DNS updater and the mailer, and the redirect
// address of a device.
//
// The manager calls its validator with the request arguments only, which is
// not the signature of redirect/validation.py, so each operation here takes
// the validator's result as an input. Collaborator calls may raise: a raised
// exception is an `Err` carrying str(e).

module AccountManager {
  import opened Basics

  /** An HTTP answer: the text, the status and the headers (empty for the
    * two-element tuples the source returns). */
  datatype Reply = Reply(body: string, status: int, headers: map<string, string>)

  /** A handler either returns a reply or lets an exception escape. */
  datatype Outcome = Returned(reply: Reply) | Raised(error: string)

  /** What the database knows of a user: name, ip and port. */
  datatype Info = Info(username: Option<string>, ip: Option<string>, port: Option<string>)

  /** The arguments of database.insert. */
  datatype NewAccount = NewAccount(
    username: Option<string>, email: Option<string>, password: Option<string>,
    token: string, ip: Option<string>, port: Option<string>)

  /** The arguments of a DNS records call. */
  datatype Records = Records(username: Option<string>, ip: Option<string>, port: Option<string>, domain: string)

  /** The validator's results. */
  datatype CreateValidation = CreateValidation(
    errors: seq<string>, username: Option<string>, email: Option<string>,
    password: Option<string>, port: Option<string>, ip: Option<string>)
  datatype TokenValidation = TokenValidation(errors: seq<string>, token: Option<string>)
  datatype UpdateValidation = UpdateValidation(errors: seq<string>, token: Option<string>, ip: Option<string>, port: Option<string>)
  datatype CredentialsValidation = CredentialsValidation(errors: seq<string>, username: Option<string>, password: Option<string>)

  /** str() of an optional value, as format() prints it. */
  function Str(value: Option<string>): (r: string)
    ensures value.Some? ==> r == value.value
    ensures value.None? ==> r == "None"
  {
    if value.Some? then value.value else "None"
  }

  /** The 400 answer listing the validation messages. */
  function BadInput(errors: seq<string>): (r: Reply)
    ensures r.status == 400 && r.headers == map[] && r.body == Join(errors, ", ") + "\n"
  {
    Reply(Join(errors, ", ") + "\n", 400, map[])
  }

  /** A two-element answer: text and status. */
  function Plain(body: string, status: int): (r: Reply)
    ensures r.body == body && r.status == status && r.headers == map[]
  {
    Reply(body, status, map[])
  }

  // -------------------------------------------------------- collaborators

  /** The database as the manager sees it: its answers are fixed functions of
    * the arguments; its changes are kept as logs. Any call may raise. */
  class AccountDb {
    const knownUser: (Option<string>, Option<string>) -> bool
    const activatable: Option<string> -> bool
    const knownToken: Option<string> -> bool
    const infoByToken: Option<string> -> Info
    const portByUsername: string -> Option<string>
    const validUser: (Option<string>, Option<string>) -> bool
    const tokenByPassword: (Option<string>, Option<string>) -> string
    const infoByPassword: (Option<string>, Option<string>) -> Info
    var inserted: seq<NewAccount>
    var activated: seq<Option<string>>
    var updated: seq<(Option<string>, Option<string>, Option<string>)>
    var deleted: seq<(Option<string>, Option<string>)>

    constructor (knownUser: (Option<string>, Option<string>) -> bool, activatable: Option<string> -> bool,
                 knownToken: Option<string> -> bool, infoByToken: Option<string> -> Info,
                 portByUsername: string -> Option<string>, validUser: (Option<string>, Option<string>) -> bool,
                 tokenByPassword: (Option<string>, Option<string>) -> string,
                 infoByPassword: (Option<string>, Option<string>) -> Info)
      ensures this.knownUser == knownUser && this.activatable == activatable && this.knownToken == knownToken
      ensures this.infoByToken == infoByToken && this.portByUsername == portByUsername
      ensures this.validUser == validUser && this.tokenByPassword == tokenByPassword
      ensures this.infoByPassword == infoByPassword
      ensures inserted == [] && activated == [] && updated == [] && deleted == []
    {
      this.knownUser, this.activatable, this.knownToken, this.infoByToken := knownUser, activatable, knownToken, infoByToken;
      this.portByUsername, this.validUser, this.tokenByPassword := portByUsername, validUser, tokenByPassword;
      this.infoByPassword := infoByPassword;
      inserted, activated, updated, deleted := [], [], [], [];
    }

    /** All the changes made so far. */
    ghost function Log(): (seq<NewAccount>, seq<Option<string>>, seq<(Option<string>, Option<string>, Option<string>)>, seq<(Option<string>, Option<string>)>)
      reads this
    {
      (inserted, activated, updated, deleted)
    }

    method Exists(username: Option<string>, email: Option<string>) returns (r: Result<bool, string>)
      ensures r.Ok? ==> r.value == knownUser(username, email)
    {
      if * { return Err("database error"); }
      return Ok(knownUser(username, email));
    }

    method Insert(account: NewAccount) returns (err: Option<string>)
      modifies this
      ensures err.None? ==> Log() == old(Log()).(0 := old(inserted) + [account])
      ensures err.Some? ==> Log() == old(Log())
    {
      if * { return Some("database error"); }
      inserted := inserted + [account];
      return None;
    }

    /** Activate the user holding the token; the answer says whether one did. */
    method Activate(token: Option<string>) returns (r: Result<bool, string>)
      modifies this
      ensures r.Ok? ==> r.value == activatable(token)
      ensures r == Ok(true) ==> Log() == old(Log()).(1 := old(activated) + [token])
      ensures r != Ok(true) ==> Log() == old(Log())
    {
      if * { return Err("database error"); }
      if activatable(token) {
        activated := activated + [token];
      }
      return Ok(activatable(token));
    }

    method ExistingToken(token: Option<string>) returns (r: Result<bool, string>)
      ensures r.Ok? ==> r.value == knownToken(token)
    {
      if * { return Err("database error"); }
      return Ok(knownToken(token));
    }

    method GetUserInfoByToken(token: Option<string>) returns (r: Result<Info, string>)
      ensures r.Ok? ==> r.value == infoByToken(token)
    {
      if * { return Err("database error"); }
      return Ok(infoByToken(token));
    }

    method Update(token: Option<string>, ip: Option<string>, port: Option<string>) returns (err: Option<string>)
      modifies this
      ensures err.None? ==> Log() == old(Log()).(2 := old(updated) + [(token, ip, port)])
      ensures err.Some? ==> Log() == old(Log())
    {
      if * { return Some("database error"); }
      updated := updated + [(token, ip, port)];
      return None;
    }

    method GetPortByUsername(username: string) returns (r: Result<Option<string>, string>)
      ensures r.Ok? ==> r.value == portByUsername(username)
    {
      if * { return Err("database error"); }
      return Ok(portByUsername(username));
    }

    method ValidUser(username: Option<string>, password: Option<string>) returns (r: Result<bool, string>)
      ensures r.Ok? ==> r.value == validUser(username, password)
    {
      if * { return Err("database error"); }
      return Ok(validUser(username, password));
    }

    method GetTokenByPassword(username: Option<string>, password: Option<string>) returns (r: Result<string, string>)
      ensures r.Ok? ==> r.value == tokenByPassword(username, password)
    {
      if * { return Err("database error"); }
      return Ok(tokenByPassword(username, password));
    }

    method GetUserInfoByPassword(username: Option<string>, password: Option<string>) returns (r: Result<Info, string>)
      ensures r.Ok? ==> r.value == infoByPassword(username, password)
    {
      if * { return Err("database error"); }
      return Ok(infoByPassword(username, password));
    }

    method DeleteUser(username: Option<string>, password: Option<string>) returns (err: Option<string>)
      modifies this
      ensures err.None? ==> Log() == old(Log()).(3 := old(deleted) + [(username, password)])
      ensures err.Some? ==> Log() == old(Log())
    {
      if * { return Some("database error"); }
      deleted := deleted + [(username, password)];
      return None;
    }
  }

  /** The DNS updater: the record calls it carried out. */
  class RecordsDns {
    var created: seq<Records>
    var updated: seq<Records>
    var deleted: seq<Records>

    constructor ()
      ensures created == [] && updated == [] && deleted == []
    {
      created, updated, deleted := [], [], [];
    }

    ghost function Log(): (seq<Records>, seq<Records>, seq<Records>)
      reads this
    {
      (created, updated, deleted)
    }

    method CreateRecords(records: Records) returns (err: Option<string>)
      modifies this
      ensures err.None? ==> Log() == old(Log()).(0 := old(created) + [records])
      ensures err.Some? ==> Log() == old(Log())
    {
      if * { return Some("dns error"); }
      created := created + [records];
      return None;
    }

    method UpdateRecords(records: Records) returns (err: Option<string>)
      modifies this
      ensures err.None? ==> Log() == old(Log()).(1 := old(updated) + [records])
      ensures err.Some? ==> Log() == old(Log())
    {
      if * { return Some("dns error"); }
      updated := updated + [records];
      return None;
    }

    method DeleteRecords(records: Records) returns (err: Option<string>)
      modifies this
      ensures err.None? ==> Log() == old(Log()).(2 := old(deleted) + [records])
      ensures err.Some? ==> Log() == old(Log())
    {
      if * { return Some("dns error"); }
      deleted := deleted + [records];
      return None;
    }
  }

  /** The activation mailer: (username, email, token) of each mail sent. */
  class ActivationMail {
    var sent: seq<(Option<string>, Option<string>, string)>

    constructor ()
      ensures sent == []
    {
      sent := [];
    }

    method Send(username: Option<string>, email: Option<string>, token: string) returns (err: Option<string>)
      modifies this
      ensures err.None? ==> sent == old(sent) + [(username, email, token)]
      ensures err.Some? ==> sent == old(sent)
    {
      if * { return Some("mail error"); }
      sent := sent + [(username, email, token)];
      return None;
    }
  }

  // ------------------------------------------------------------ addresses

  /** The user name in a request host: the host without its last
    * len(domain) + 1 characters (Python's addr[:-(len(domain) + 1)]). */
  function RedirectUsername(netloc: string, domain: string): (r: string)
    ensures HasSuffix(netloc, "." + domain) ==> r + "." + domain == netloc
    ensures |netloc| <= |domain| + 1 ==> r == ""
    ensures HasPrefix(netloc, r)
  {
    var keep := |netloc| - (|domain| + 1);
    if keep <= 0 then "" else netloc[..keep]
  }

  /** The address of a registered device. */
  function DeviceUrl(username: string, domain: string, port: string): (r: string)
    ensures HasPrefix(r, "http://device." + username + ".")
  {
    "http://" + "device." + username + "." + domain + ":" + port + "/owncloud"
  }

  // -------------------------------------------------------------- manager

  class Manager {
    const db: AccountDb
    const dns: RecordsDns
    const mail: ActivationMail
    const domain: string
    const tokenByMail: bool

    constructor (db: AccountDb, dns: RecordsDns, domain: string, tokenByMail: bool, mail: ActivationMail)
      ensures this.db == db && this.dns == dns && this.mail == mail && this.domain == domain && this.tokenByMail == tokenByMail
    {
      this.db, this.dns, this.mail, this.domain, this.tokenByMail := db, dns, mail, domain, tokenByMail;
    }

    /** request_account, with `token` the fresh uuid: 400 on validation
      * messages, 409 for a known user, and 200 once the account is inserted
      * and the token mailed or put in the Token header; a failure inside the
      * try block is 500. A missing port is replaced by the remote address. */
    method RequestAccount(v: CreateValidation, remoteAddr: Option<string>, token: string) returns (out: Outcome)
      modifies db, mail
      ensures v.errors != [] ==> out == Returned(BadInput(v.errors))
      ensures v.errors != [] || db.knownUser(v.username, v.email) || out.Raised? ==>
        db.Log() == old(db.Log()) && mail.sent == old(mail.sent)
      ensures v.errors == [] && db.knownUser(v.username, v.email) ==>
        out.Raised? || out == Returned(Plain("User already exists\n", 409))
      ensures v.errors == [] && !db.knownUser(v.username, v.email) ==> out.Raised? || out.reply.status in {200, 500}
      ensures out.Returned? && out.reply.status == 200 ==>
        v.errors == [] && !db.knownUser(v.username, v.email) &&
        out.reply.body == "Created, check your mail for activation\n" &&
        db.Log() == old(db.Log()).(0 := old(db.inserted) +
          [NewAccount(v.username, v.email, v.password, token, v.ip, if v.port.None? then remoteAddr else v.port)]) &&
        (tokenByMail ==> out.reply.headers == map[] && mail.sent == old(mail.sent) + [(v.username, v.email, token)]) &&
        (!tokenByMail ==> out.reply.headers == map["Token" := token] && mail.sent == old(mail.sent))
      ensures out.Returned? && out.reply.status == 500 ==>
        v.errors == [] && !db.knownUser(v.username, v.email) &&
        HasPrefix(out.reply.body, "Unable to create user: ") && mail.sent == old(mail.sent)
      ensures out.Returned? ==> out.reply.status in {200, 400, 409, 500}
    {
      if v.errors != [] {
        return Returned(BadInput(v.errors));
      }
      var port := v.port;
      if port.None? {
        port := remoteAddr;
      }
      var found := db.Exists(v.username, v.email);
      if found.Err? {
        return Raised(found.error);
      }
      if found.value {
        return Returned(Plain("User already exists\n", 409));
      }
      var err := db.Insert(NewAccount(v.username, v.email, v.password, token, v.ip, port));
      if err.Some? {
        return Returned(Plain("Unable to create user: " + err.value + "\n", 500));
      }
      var headers := map[];
      if tokenByMail {
        err := mail.Send(v.username, v.email, token);
        if err.Some? {
          return Returned(Plain("Unable to create user: " + err.value + "\n", 500));
        }
      } else {
        headers := map["Token" := token];
      }
      return Returned(Reply("Created, check your mail for activation\n", 200, headers));
    }

    /** redirect_url for the request host `netloc`: the device address when
      * the user's port is known, the default otherwise (also when the lookup
      * raises). */
    method RedirectUrl(netloc: string, defaultUrl: string) returns (url: string)
      ensures var username := RedirectUsername(netloc, domain);
        (db.portByUsername(username).None? ==> url == "http://" + defaultUrl) &&
        (db.portByUsername(username).Some? ==>
           url == "http://" + defaultUrl || url == DeviceUrl(username, domain, db.portByUsername(username).value))
    {
      var target := defaultUrl;
      var username := RedirectUsername(netloc, domain);
      var port := db.GetPortByUsername(username);
      if port.Ok? && port.value.Some? {
        target := "device." + username + "." + domain + ":" + port.value.value + "/owncloud";
      }
      return "http://" + target;
    }

    /** activate: 400 on validation messages or an unknown token; 200 once the
      * user is activated and the records are created; a failure is 500. */
    method Activate(v: TokenValidation) returns (out: Outcome)
      modifies db, dns
      ensures out.Returned? && out.reply.headers == map[]
      ensures v.errors != [] ==> out == Returned(BadInput(v.errors)) && db.Log() == old(db.Log()) && dns.Log() == old(dns.Log())
      ensures v.errors == [] && !db.activatable(v.token) ==>
        (out == Returned(Plain("Not valid token\n", 400)) || out.reply.status == 500) &&
        db.Log() == old(db.Log()) && dns.Log() == old(dns.Log())
      ensures v.errors == [] && db.activatable(v.token) ==> out.reply.status in {200, 500}
      ensures out.reply.status == 200 <==>
        (v.errors == [] && db.activatable(v.token) && out.reply.body == "Activated\n" &&
         db.Log() == old(db.Log()).(1 := old(db.activated) + [v.token]) &&
         dns.Log() == old(dns.Log()).(0 := old(dns.created) +
           [Records(db.infoByToken(v.token).username, db.infoByToken(v.token).ip, db.infoByToken(v.token).port, domain)]))
      ensures out.reply.status == 500 ==> v.errors == [] && HasPrefix(out.reply.body, "Not activated: ") && dns.created == old(dns.created)
      ensures out.reply.status in {200, 400, 500}
    {
      if v.errors != [] {
        return Returned(BadInput(v.errors));
      }
      var activated := db.Activate(v.token);
      if activated.Err? {
        return Returned(Plain("Not activated: " + activated.error + "\n", 500));
      }
      if !activated.value {
        return Returned(Plain("Not valid token\n", 400));
      }
      var info := db.GetUserInfoByToken(v.token);
      if info.Err? {
        return Returned(Plain("Not activated: " + info.error + "\n", 500));
      }
      var err := dns.CreateRecords(Records(info.value.username, info.value.ip, info.value.port, domain));
      if err.Some? {
        return Returned(Plain("Not activated: " + err.value + "\n", 500));
      }
      return Returned(Plain("Activated\n", 200));
    }

    /** update: 400 on validation messages or an unknown token; 304 with no
      * change when ip and port are those stored; otherwise the records are
      * updated, then the database, and the answer is 200; a failure is 500.
      * A missing port is replaced by the remote address. */
    method Update(v: UpdateValidation, remoteAddr: Option<string>) returns (out: Outcome)
      modifies db, dns
      ensures out.Returned? && out.reply.headers == map[]
      ensures v.errors != [] ==> out == Returned(BadInput(v.errors)) && db.Log() == old(db.Log()) && dns.Log() == old(dns.Log())
      ensures var newPort := if v.port.None? then remoteAddr else v.port;
        var info := db.infoByToken(v.token);
        (v.errors == [] && !db.knownToken(v.token) ==>
           out == Returned(Plain("Not valid token\n", 400)) || out.reply.status == 500) &&
        (v.errors == [] && db.knownToken(v.token) && v.ip == info.ip && newPort == info.port ==>
           out == Returned(Plain("No modified\n", 304)) || out.reply.status == 500) &&
        (out.reply.status == 304 ==>
           v.errors == [] && db.knownToken(v.token) && v.ip == info.ip && newPort == info.port) &&
        (v.errors == [] && db.knownToken(v.token) && !(v.ip == info.ip && newPort == info.port) ==>
           out.reply.status in {200, 500}) &&
        (out.reply.status == 200 ==>
           v.errors == [] && db.knownToken(v.token) && !(v.ip == info.ip && newPort == info.port) &&
           out.reply.body == "Updated to " + Str(v.ip) + ":" + Str(newPort) + "\n" &&
           dns.Log() == old(dns.Log()).(1 := old(dns.updated) + [Records(info.username, v.ip, newPort, domain)]) &&
           db.Log() == old(db.Log()).(2 := old(db.updated) + [(v.token, v.ip, newPort)]))
      ensures out.reply.status != 200 ==> db.Log() == old(db.Log())
      ensures out.reply.status in {304, 400} ==> dns.Log() == old(dns.Log())
      ensures out.reply.status == 500 ==> v.errors == [] && HasPrefix(out.reply.body, "Unable to update: ")
      ensures out.reply.status in {200, 304, 400, 500}
    {
      if v.errors != [] {
        return Returned(BadInput(v.errors));
      }
      var newPort := v.port;
      if newPort.None? {
        newPort := remoteAddr;
      }
      var known := db.ExistingToken(v.token);
      if known.Err? {
        return Returned(Plain("Unable to update: " + known.error + "\n", 500));
      }
      if !known.value {
        return Returned(Plain("Not valid token\n", 400));
      }
      var info := db.GetUserInfoByToken(v.token);
      if info.Err? {
        return Returned(Plain("Unable to update: " + info.error + "\n", 500));
      }
      if v.ip == info.value.ip && newPort == info.value.port {
        return Returned(Plain("No modified\n", 304));
      }
      var err := dns.UpdateRecords(Records(info.value.username, v.ip, newPort, domain));
      if err.Some? {
        return Returned(Plain("Unable to update: " + err.value + "\n", 500));
      }
      err := db.Update(v.token, v.ip, newPort);
      if err.Some? {
        return Returned(Plain("Unable to update: " + err.value + "\n", 500));
      }
      return Returned(Plain("Updated to " + Str(v.ip) + ":" + Str(newPort) + "\n", 200));
    }

    /** token: 400 on missing credentials or a wrong password; 200 with the
      * user's token in the Token header; a failure is 500. Nothing changes. */
    method Token(v: CredentialsValidation) returns (out: Outcome)
      ensures out.Returned?
      ensures v.errors != [] ==> out == Returned(BadInput(v.errors))
      ensures v.errors == [] && !db.validUser(v.username, v.password) ==>
        out == Returned(Plain("User does not exist or password is incorrect\n", 400)) || out.reply.status == 500
      ensures v.errors == [] && db.validUser(v.username, v.password) ==> out.reply.status in {200, 500}
      ensures out.reply.status == 200 <==>
        (v.errors == [] && db.validUser(v.username, v.password) &&
         out.reply == Reply("Token found\n", 200, map["Token" := db.tokenByPassword(v.username, v.password)]))
      ensures out.reply.status == 500 ==> v.errors == [] && HasPrefix(out.reply.body, "Unable to get token: ")
      ensures out.reply.status in {200, 400, 500}
    {
      if v.errors != [] {
        return Returned(BadInput(v.errors));
      }
      var valid := db.ValidUser(v.username, v.password);
      if valid.Err? {
        return Returned(Plain("Unable to get token: " + valid.error + "\n", 500));
      }
      if !valid.value {
        return Returned(Plain("User does not exist or password is incorrect\n", 400));
      }
      var token := db.GetTokenByPassword(v.username, v.password);
      if token.Err? {
        return Returned(Plain("Unable to get token: " + token.error + "\n", 500));
      }
      return Returned(Reply("Token found\n", 200, map["Token" := token.value]));
    }

    /** delete: 400 on missing credentials or a wrong password; otherwise the
      * records are deleted, then the user under the name the database
      * returned with its info, and the answer is 200; a failure is 500. */
    method Delete(v: CredentialsValidation) returns (out: Outcome)
      modifies db, dns
      ensures out.Returned? && out.reply.headers == map[]
      ensures v.errors != [] ==> out == Returned(BadInput(v.errors)) && db.Log() == old(db.Log()) && dns.Log() == old(dns.Log())
      ensures v.errors == [] && !db.validUser(v.username, v.password) ==>
        (out == Returned(Plain("User does not exist or password is incorrect\n", 400)) || out.reply.status == 500) &&
        db.Log() == old(db.Log()) && dns.Log() == old(dns.Log())
      ensures v.errors == [] && db.validUser(v.username, v.password) ==> out.reply.status in {200, 500}
      ensures out.reply.status == 200 ==>
        v.errors == [] && db.validUser(v.username, v.password) && out.reply.body == "User and dns are removed\n" &&
        (var info := db.infoByPassword(v.username, v.password);
         dns.Log() == old(dns.Log()).(2 := old(dns.deleted) + [Records(info.username, info.ip, info.port, domain)]) &&
         db.Log() == old(db.Log()).(3 := old(db.deleted) + [(info.username, v.password)]))
      ensures out.reply.status == 500 ==> v.errors == [] && HasPrefix(out.reply.body, "Unable to update: ") && db.Log() == old(db.Log())
      ensures out.reply.status in {200, 400, 500}
    {
      if v.errors != [] {
        return Returned(BadInput(v.errors));
      }
      var valid := db.ValidUser(v.username, v.password);
      if valid.Err? {
        return Returned(Plain("Unable to update: " + valid.error + "\n", 500));
      }
      if !valid.value {
        return Returned(Plain("User does not exist or password is incorrect\n", 400));
      }
      var info := db.GetUserInfoByPassword(v.username, v.password);
      if info.Err? {
        return Returned(Plain("Unable to update: " + info.error + "\n", 500));
      }
      var err := dns.DeleteRecords(Records(info.value.username, info.value.ip, info.value.port, domain));
      if err.Some? {
        return Returned(Plain("Unable to update: " + err.value + "\n", 500));
      }
      err := db.DeleteUser(info.value.username, v.password);
      if err.Some? {
        return Returned(Plain("Unable to update: " + err.value + "\n", 500));
      }
      return Returned(Plain("User and dns are removed\n", 200));
    }
  }

  // ------------------------------------------------------------------ lemmas

  /** The host of a device under the domain gives back its user name. */
  lemma RedirectForRegisteredUser()
    ensures RedirectUsername("user.example.com", "example.com") == "user"
  {
    assert "user.example.com"[..4] == "user";
  }

  /** A known port gives the device address. */
  lemma DeviceUrlExample()
    ensures DeviceUrl("user", "example.com", "80") == "http://device.user.example.com:80/owncloud"
  {
  }

  /** The user name is found by length alone: the host is not checked to lie
    * under the domain, so a host of another domain of the same length also
    * gives a name. */
  lemma UsernameByLengthOnly()
    ensures RedirectUsername("user.example.org", "example.com") == "user"
    ensures RedirectUsername("example.com", "example.com") == ""
  {
    assert "user.example.org"[..4] == "user";
  }

  /** Validation messages are listed in the answer, separated by ", ". */
  lemma InvalidListsMessages(a: string, b: string)
    ensures BadInput([a, b]).body == a + ", " + b + "\n"
  {
    assert Join([a, b], ", ") == a + ", " + Join([b], ", ");
  }
}
