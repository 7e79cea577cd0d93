// The domain service (backend/service/domains.go): looking up, listing,
// deleting, checking availability of, acquiring and updating domains.

module Domains {
  import opened Basics
  import opened Errors
  import opened UserModel
  import opened DomainModel
  import opened Store
  import opened Validation
  import opened Route53
  import Change
  import Users

  const UnknownUpdateToken := "unknown domain update token"
  const NotFound := "not found"
  const DomainInUse := "User domain name is already in use"
  const PremiumRequired := "non free domain name requires a premium subscription"

  /** model.DomainUpdateRequest. */
  datatype DomainUpdateRequest = DomainUpdateRequest(
    ip: Option<string>, localIp: Option<string>, mapLocalAddress: bool, token: Option<string>,
    ipv6: Option<string>, dkimKey: Option<string>, platformVersion: Option<string>,
    webProtocol: Option<string>, webLocalPort: Option<int>, webPort: Option<int>,
    ipv4Enabled: bool, ipv6Enabled: bool)

  /** The address values Update stores: IPv4 and the local address only when
    * IPv4 is enabled, IPv6 only when IPv6 is enabled. */
  function StoredIpv4(request: DomainUpdateRequest, ip: string): Option<string> {
    if request.ipv4Enabled then Some(ip) else None
  }

  function StoredLocalIp(request: DomainUpdateRequest): Option<string> {
    if request.ipv4Enabled then request.localIp else None
  }

  function StoredIpv6(request: DomainUpdateRequest): Option<string> {
    if request.ipv6Enabled then request.ipv6 else None
  }

  /** The domain after Update has copied the request into it (before the
    * LastUpdate stamp). */
  function Refreshed(d: DomainRow, request: DomainUpdateRequest, ip: string, webProtocol: string, webLocalPort: int): DomainRow {
    d.(ip := StoredIpv4(request, ip), localIp := StoredLocalIp(request), ipv6 := StoredIpv6(request),
       dkimKey := request.dkimKey, mapLocalAddress := request.mapLocalAddress,
       platformVersion := request.platformVersion, webProtocol := Some(webProtocol),
       webLocalPort := Some(webLocalPort), webPort := request.webPort)
  }

  /** Update's change test: the detector on the stored and the new values. */
  function DnsChanged(d: DomainRow, request: DomainUpdateRequest, ip: string): bool {
    Change.Changed(d.mapLocalAddress, d.ip, d.ipv6, d.dkimKey, d.localIp,
                   request.mapLocalAddress, StoredIpv4(request, ip), StoredIpv6(request), request.dkimKey,
                   StoredLocalIp(request))
  }

  function DnsValuesOf(d: DomainRow): Change.DnsValues {
    Change.DnsValues(d.mapLocalAddress, d.ip, d.ipv6, d.dkimKey, d.localIp)
  }

  /** DNS is rewritten exactly when a value that reaches DNS changes. */
  lemma DnsChangedIffValuesDiffer(d: DomainRow, request: DomainUpdateRequest, ip: string, webProtocol: string, webLocalPort: int)
    ensures DnsChanged(d, request, ip) <==> DnsValuesOf(d) != DnsValuesOf(Refreshed(d, request, ip, webProtocol, webLocalPort))
  {
  }

  /** The enable flags decide which addresses are kept. */
  lemma RefreshedRespectsFlags(d: DomainRow, request: DomainUpdateRequest, ip: string, webProtocol: string, webLocalPort: int)
    ensures var n := Refreshed(d, request, ip, webProtocol, webLocalPort);
      (request.ipv4Enabled ==> n.ip == Some(ip) && n.localIp == request.localIp) &&
      (!request.ipv4Enabled ==> n.ip.None? && n.localIp.None?) &&
      (request.ipv6Enabled ==> n.ipv6 == request.ipv6) && (!request.ipv6Enabled ==> n.ipv6.None?) &&
      n.id == d.id && n.userId == d.userId && n.name == d.name && n.hostedZoneId == d.hostedZoneId &&
      n.updateToken == d.updateToken
  {
  }

  /** The domain DomainAcquire creates for a new name: the device fields, a
    * token, the owner, the zone and LastUpdate; no id until the database
    * assigns one. */
  function AcquiredDomain(name: string, mac: string, deviceName: Option<string>, deviceTitle: Option<string>,
                          userId: int, updateToken: string, now: int, hostedZoneId: string): (d: DomainRow)
    ensures d.id == 0 && d.name == name && d.userId == userId && d.hostedZoneId == hostedZoneId
    ensures d.updateToken == Some(updateToken) && d.lastUpdate == Some(now)
    ensures d.deviceMacAddress == Some(mac) && d.deviceName == deviceName && d.deviceTitle == deviceTitle
    ensures d.ip.None? && d.ipv6.None? && d.localIp.None? && d.dkimKey.None? && !d.mapLocalAddress
  {
    DomainRow(0, "", None, None, None, None, false, Some(updateToken), Some(now), Some(mac), deviceName, deviceTitle,
              None, None, None, None, userId, hostedZoneId, name, [], None)
  }

  /** The concatenation of a sequence of logs. */
  function Flatten<T>(logs: seq<seq<T>>): (r: seq<T>)
    ensures |logs| == 0 ==> r == []
    decreases |logs|
  {
    if |logs| == 0 then [] else Flatten(logs[..|logs| - 1]) + logs[|logs| - 1]
  }

  lemma FlattenAppend<T>(logs: seq<seq<T>>, log: seq<T>)
    ensures Flatten(logs + [log]) == Flatten(logs) + log
  {
    assert (logs + [log])[..|logs|] == logs;
  }

  /** Appending a log to the flattened logs. */
  lemma LogStep<T>(start: seq<T>, before: seq<T>, after: seq<T>, logs: seq<seq<T>>, next: seq<T>)
    requires before == start + Flatten(logs) && after == before + next
    ensures after == start + Flatten(logs + [next])
  {
    FlattenAppend(logs, next);
  }

  /** Update's validation passes. */
  predicate UpdatePasses(request: DomainUpdateRequest, requestIp: Option<string>, parse: IpParser) {
    RequiredErrors(request.token) == [] && IpRule(request.ip, requestIp, parse).0 == [] &&
    LocalIpErrors(request.localIp, parse) == [] && WebProtocolRule(request.webProtocol).0 == [] &&
    PortRule(request.webLocalPort).0 == []
  }

  /** DomainAcquire's validation passes. */
  predicate AcquirePasses(domain: Option<string>, domainField: string, mainDomain: string, mac: Option<string>,
                          name: Option<string>, title: Option<string>) {
    DomainErrors(domain, mainDomain) == [] && MacRule(mac).0 == [] &&
    RequiredErrors(name) == [] && RequiredErrors(title) == []
  }

  /** The validation step of Update: token, address, web protocol and port. */
  method CheckUpdate(request: DomainUpdateRequest, requestIp: Option<string>, parse: IpParser)
    returns (r: Result<(string, string, string, int), Error>)
    ensures r.Ok? <==> UpdatePasses(request, requestIp, parse)
    ensures r.Ok? ==>
      (request.token.Some? && IpRule(request.ip, requestIp, parse).1.Some? &&
       WebProtocolRule(request.webProtocol).1.Some? && PortRule(request.webLocalPort).1.Some? &&
       r.value == (request.token.value, IpRule(request.ip, requestIp, parse).1.value,
                   WebProtocolRule(request.webProtocol).1.value, PortRule(request.webLocalPort).1.value))
    ensures r.Err? ==> r.error.ParameterError?
  {
    var v := new FieldValidator();
    v.Token(request.token);
    var ip := v.Ip(request.ip, requestIp, parse);
    v.LocalIp(request.localIp, parse);
    var webProtocol := v.WebProtocol(request.webProtocol);
    var webLocalPort := v.WebLocalPort(request.webLocalPort);
    if v.HasErrors() {
      var messages := v.ToParametersMessages();
      return Err(ParameterError(messages));
    }
    return Ok((request.token.value, ip.value, webProtocol.value, webLocalPort.value));
  }

  /** The validation step of DomainAcquire: domain, MAC address, name and title. */
  method CheckAcquire(domain: Option<string>, domainField: string, mainDomain: string, mac: Option<string>,
                      name: Option<string>, title: Option<string>) returns (r: Result<(string, string), Error>)
    ensures r.Ok? <==> AcquirePasses(domain, domainField, mainDomain, mac, name, title)
    ensures r.Ok? ==> domain.Some? && mac.Some? && r.value == (domain.value, mac.value)
    ensures r.Err? ==> r.error.ParameterError?
  {
    var v := new FieldValidator();
    v.Domain(domain, domainField, mainDomain);
    var macChecked := v.DeviceMacAddress(mac);
    v.DeviceName(name);
    v.DeviceTitle(title);
    if v.HasErrors() {
      var messages := v.ToParametersMessages();
      return Err(ParameterError(messages));
    }
    return Ok((domain.value, macChecked.value));
  }

  /** The validation step of Availability: the domain field alone. */
  method CheckDomain(domain: Option<string>, mainDomain: string) returns (r: Result<string, Error>)
    ensures r.Ok? <==> DomainErrors(domain, mainDomain) == []
    ensures r.Ok? ==> domain.Some? && r.value == domain.value
    ensures r.Err? ==> r.error.ParameterError?
  {
    var v := new FieldValidator();
    v.Domain(domain, "domain", mainDomain);
    if v.HasErrors() {
      var messages := v.ToParametersMessages();
      return Err(ParameterError(messages));
    }
    return Ok(domain.value);
  }

  class Domains {
    const dns: AmazonDns
    const db: Db
    const users: Users.Users
    /** The main domain. */
    const domain: string
    const freeHostedZoneId: string
    const parse: IpParser

    ghost predicate Valid()
      reads this, db
    {
      db.Valid() && users.db == db && users.actions.db == db && dns.Valid() && dns.parse == parse
    }

    constructor (dns: AmazonDns, db: Db, users: Users.Users, domain: string, freeHostedZoneId: string, parse: IpParser)
      requires db.Valid() && users.db == db && users.actions.db == db && dns.Valid() && dns.parse == parse
      ensures Valid() && this.dns == dns && this.db == db && this.users == users
      ensures this.domain == domain && this.freeHostedZoneId == freeHostedZoneId && this.parse == parse
    {
      this.dns, this.db, this.users := dns, db, users;
      this.domain, this.freeHostedZoneId, this.parse := domain, freeHostedZoneId, parse;
    }

    /** How GetDomains presents a domain: name servers filled in for a zone
      * of its own, then the deprecated user label. */
    function Presented(d: DomainRow): DomainRow {
      (if d.hostedZoneId != freeHostedZoneId then d.(nameServers := dns.nameServersOf(d.hostedZoneId)) else d)
        .BackwardCompatible(domain)
    }

    /** The batches deleteDomain commits: the records, and for a zone of its
      * own also the certbot challenge record. */
    function DeletionCommits(d: DomainRow): seq<Commit>
      requires dns.Valid()
    {
      RecordRemoval(d.FQDN(), d.hostedZoneId, dns.txtLimit) +
      (if d.hostedZoneId != freeHostedZoneId then CertbotRemoval(d.hostedZoneId, "_acme-challenge." + d.FQDN()) else [])
    }


    /** The domain of an update token whose owner exists and is active (the
      * steps GetDomain and Update share). */
    method DomainOfToken(token: string) returns (r: Result<DomainRow, Error>, ghost found: Option<DomainRow>)
      requires Valid()
      ensures found.Some? ==> Stored(db.domains, found.value.id, found.value) && found.value.updateToken == Some(token)
      ensures r.Ok? ==>
        (found == Some(r.value) && r.value.userId in db.users && db.users[r.value.userId].active)
      ensures r.Err? ==> r.error == DbFailure || r.error == NewServiceError(UnknownUpdateToken)
      ensures found.None? && r.Err? && r.error != DbFailure ==>
        forall id :: id in db.domains ==> db.domains[id].updateToken != Some(token)
      ensures found.Some? && !(found.value.userId in db.users && db.users[found.value.userId].active) ==> r.Err?
    {
      found := None;
      var byToken := db.GetDomainByToken(token);
      if byToken.Err? { return Err(byToken.error), found; }
      if byToken.value.None? { return Err(NewServiceError(UnknownUpdateToken)), found; }
      var d := byToken.value.value;
      found := Some(d);
      var user := db.GetUser(d.userId);
      if user.Err? { return Err(user.error), found; }
      if user.value.None? || !user.value.value.active { return Err(NewServiceError(UnknownUpdateToken)), found; }
      return Ok(d), found;
    }

    /** The domain of a token with an active owner, with its user label. (The
      * token validator cannot fail on a token that is present.) */
    method GetDomain(token: string) returns (r: Result<DomainRow, Error>, ghost found: Option<DomainRow>)
      requires Valid()
      ensures found.Some? ==> Stored(db.domains, found.value.id, found.value) && found.value.updateToken == Some(token)
      ensures r.Ok? ==>
        (found.Some? && found.value.userId in db.users && db.users[found.value.userId].active &&
         r.value == found.value.BackwardCompatible(domain))
      ensures r.Err? ==> r.error == DbFailure || r.error == NewServiceError(UnknownUpdateToken)
      ensures found.Some? && !(found.value.userId in db.users && db.users[found.value.userId].active) ==> r.Err?
      ensures (forall id :: id in db.domains ==> db.domains[id].updateToken != Some(token)) ==> r.Err?
    {
      var d;
      d, found := DomainOfToken(token);
      if d.Err? { return Err(d.error), found; }
      var dom := new Domain.FromRow(d.value);
      dom.BackwardCompatibleDomain(domain);
      return Ok(dom.Row()), found;
    }

    /** One step of GetDomains: ask Route 53 for the name servers of a zone of
      * the domain's own, then add the user label. */
    method Present(d: DomainRow) returns (r: Result<DomainRow, Error>)
      ensures r.Ok? ==> r.value == Presented(d)
    {
      var dom := new Domain.FromRow(d);
      if freeHostedZoneId != dom.hostedZoneId {
        var nameServers := dns.GetHostedZoneNameServers(dom.hostedZoneId);
        if nameServers.Err? { return Err(nameServers.error); }
        dom.nameServers := nameServers.value;
      }
      dom.BackwardCompatibleDomain(domain);
      return Ok(dom.Row());
    }

    /** The user's domains as GetDomains presents them. */
    method GetDomains(user: UserRow) returns (r: Result<seq<DomainRow>, Error>, ghost found: seq<DomainRow>)
      requires Valid()
      ensures forall i :: 0 <= i < |found| ==> Stored(db.domains, found[i].id, found[i]) && found[i].userId == user.id
      ensures r.Ok? ==>
        forall id :: id in db.domains && db.domains[id].userId == user.id ==> exists i :: 0 <= i < |found| && found[i].id == id
      ensures forall i, j :: 0 <= i < j < |found| ==> found[i].id != found[j].id
      ensures r.Ok? ==> |r.value| == |found| && forall i :: 0 <= i < |found| ==> r.value[i] == Presented(found[i])
      ensures r.Ok? ==> forall i :: 0 <= i < |r.value| ==>
        r.value[i].id in db.domains && r.value[i].userId == user.id && r.value[i] == Presented(db.domains[r.value[i].id])
    {
      found := [];
      var domains := db.GetUserDomains(user.id);
      if domains.Err? { return Err(domains.error), found; }
      var list := domains.value;
      found := list;
      var out: seq<DomainRow> := [];
      var k := 0;
      while k < |list|
        invariant 0 <= k <= |list| && found == list
        invariant |out| == k && forall i :: 0 <= i < k ==> out[i] == Presented(list[i])
      {
        var presented := Present(list[k]);
        if presented.Err? { return Err(presented.error), found; }
        out := out + [presented.value];
        k := k + 1;
      }
      return Ok(out), found;
    }

    /** deleteDomain: the records go; a zone of its own also loses the
      * certbot record and is deleted, a NoSuchHostedZone answer counting as done. */
    method DeleteDomainEntries(d: DomainRow) returns (err: Option<Error>, ghost zoneErr: Option<Error>)
      requires dns.Valid()
      modifies dns
      ensures dns.createdZones == old(dns.createdZones)
      ensures err.None? ==> dns.commits == old(dns.commits) + DeletionCommits(d)
      ensures d.hostedZoneId == freeHostedZoneId || err.Some? ==> dns.deletedZones == old(dns.deletedZones)
      ensures err.None? && d.hostedZoneId != freeHostedZoneId ==>
        (zoneErr.None? && dns.deletedZones == old(dns.deletedZones) + [d.hostedZoneId]) ||
        (zoneErr.Some? && zoneErr.value.AwsError? && zoneErr.value.code == "NoSuchHostedZone" &&
         dns.deletedZones == old(dns.deletedZones))
      ensures zoneErr.Some? && zoneErr.value.AwsError? && zoneErr.value.code == "NoSuchHostedZone" ==> err.None?
    {
      zoneErr := None;
      err := dns.DeleteDomainRecords(d);
      if err.Some? { return; }
      if freeHostedZoneId != d.hostedZoneId {
        err := dns.DeleteCertbotRecord(d.hostedZoneId, "_acme-challenge." + d.FQDN());
        if err.Some? { return; }
        err := dns.DeleteHostedZone(d.hostedZoneId);
        zoneErr := err;
        if err.Some? && err.value.AwsError? && err.value.code == "NoSuchHostedZone" {
          return None, zoneErr;
        }
        if err.Some? { return; }
      }
      return None, zoneErr;
    }

    /** Each domain's deletion batches, in order. */
    function Logs(ds: seq<DomainRow>): seq<seq<Commit>>
      requires dns.Valid()
    {
      seq(|ds|, i requires 0 <= i < |ds| => DeletionCommits(ds[i]))
    }

    lemma LogsStep(ds: seq<DomainRow>, k: int)
      requires dns.Valid() && 0 <= k < |ds|
      ensures Logs(ds[..k + 1]) == Logs(ds[..k]) + [DeletionCommits(ds[k])]
    {
    }

    /** deleteDomain on each domain in turn, stopping at the first error. */
    method DeleteEach(list: seq<DomainRow>) returns (err: Option<Error>)
      requires dns.Valid()
      modifies dns
      ensures dns.createdZones == old(dns.createdZones)
      ensures err.None? ==> dns.commits == old(dns.commits) + Flatten(Logs(list))
    {
      var k := 0;
      while k < |list|
        invariant 0 <= k <= |list|
        invariant dns.commits == old(dns.commits) + Flatten(Logs(list[..k]))
        invariant dns.createdZones == old(dns.createdZones)
      {
        ghost var zoneErr;
        ghost var before := dns.commits;
        err, zoneErr := DeleteDomainEntries(list[k]);
        if err.Some? { return; }
        LogStep(old(dns.commits), before, dns.commits, Logs(list[..k]), DeletionCommits(list[k]));
        LogsStep(list, k);
        k := k + 1;
      }
      assert list[..k] == list;
      return None;
    }

    /** DeleteAllDomains: every domain of the user through deleteDomain, then the rows. */
    method DeleteAllDomains(userId: int) returns (err: Option<Error>, ghost found: seq<DomainRow>)
      requires Valid()
      modifies db, dns
      ensures Valid()
      ensures db.users == old(db.users) && db.actions == old(db.actions)
      ensures dns.createdZones == old(dns.createdZones)
      ensures err.None? ==>
        ((forall i :: 0 <= i < |found| ==> Stored(old(db.domains), found[i].id, found[i]) && found[i].userId == userId) &&
         (forall id :: id in old(db.domains) && old(db.domains)[id].userId == userId ==>
            exists i :: 0 <= i < |found| && found[i].id == id) &&
         dns.commits == old(dns.commits) + Flatten(Logs(found)) &&
         db.domains == map id | id in old(db.domains) && old(db.domains)[id].userId != userId :: old(db.domains)[id])
    {
      found := [];
      var domains := db.GetUserDomains(userId);
      if domains.Err? { return Some(domains.error), found; }
      var list := domains.value;
      found := list;
      err := DeleteEach(list);
      if err.Some? { return; }
      err := db.DeleteAllDomains(userId);
    }

    /** DeleteDomain: only the owner's domain of that name is deleted, records first. */
    method DeleteDomain(userId: int, domainName: string) returns (err: Option<Error>, ghost found: Option<DomainRow>)
      requires Valid()
      modifies db, dns
      ensures Valid()
      ensures db.users == old(db.users) && db.actions == old(db.actions)
      ensures dns.createdZones == old(dns.createdZones)
      ensures found.Some? ==> Stored(old(db.domains), found.value.id, found.value) && found.value.name == domainName
      ensures found.None? || found.value.userId != userId ==>
        (err.Some? && db.domains == old(db.domains) && dns.commits == old(dns.commits) &&
         dns.deletedZones == old(dns.deletedZones))
      ensures (forall id :: id in old(db.domains) ==> old(db.domains)[id].name != domainName) ==> err.Some?
      ensures err.None? ==>
        (found.Some? && found.value.userId == userId && db.domains == old(db.domains) - {found.value.id} &&
         dns.commits == old(dns.commits) + DeletionCommits(found.value))
    {
      found := None;
      var byName := db.GetDomainByName(domainName);
      if byName.Err? { return Some(byName.error), found; }
      found := byName.value;
      if byName.value.None? || byName.value.value.userId != userId {
        return Some(Failure(NotFound)), found;
      }
      var d := byName.value.value;
      ghost var zoneErr;
      err, zoneErr := DeleteDomainEntries(d);
      if err.Some? { return; }
      err := db.DeleteDomain(d.id);
    }

    /** findAndCheck: a name held by another user is a parameter error on the
      * field; an unknown non-free name needs a subscription. */
    method FindAndCheck(name: string, isFree: bool, user: UserRow, field: string) returns (r: Result<Option<DomainRow>, Error>)
      requires Valid()
      ensures r.Ok? && r.value.Some? ==>
        Stored(db.domains, r.value.value.id, r.value.value) && r.value.value.name == name && r.value.value.userId == user.id
      ensures r.Ok? && r.value.None? ==>
        (forall id :: id in db.domains ==> db.domains[id].name != name) && (isFree || user.subscriptionId.Some?)
      ensures r.Err? ==> r.error == DbFailure || r.error == SingleParameterError(field, DomainInUse) ||
                         r.error == Failure(PremiumRequired)
      ensures r == Err(SingleParameterError(field, DomainInUse)) ==>
        exists id :: id in db.domains && db.domains[id].name == name && db.domains[id].userId != user.id
      ensures r == Err(Failure(PremiumRequired)) ==>
        !isFree && user.subscriptionId.None? && forall id :: id in db.domains ==> db.domains[id].name != name
    {
      var found := db.GetDomainByName(name);
      if found.Err? { return Err(found.error); }
      if found.value.Some? {
        if found.value.value.userId != user.id {
          return Err(SingleParameterError(field, DomainInUse));
        }
      } else {
        if !isFree && user.subscriptionId.None? {
          return Err(Failure(PremiumRequired));
        }
      }
      return Ok(found.value);
    }

    /** Availability: authenticate, validate the domain, then findAndCheck. */
    method Availability(request: DomainAvailabilityRequest) returns (r: Result<Option<DomainRow>, Error>, ghost auth: Result<UserRow, Error>)
      requires Valid()
      ensures !Users.CredentialsPass(request.email, request.password) ==> r.Err? && r.error.ParameterError? && auth.Err?
      ensures r.Ok? ==> DomainErrors(request.domain, domain) == [] && request.domain.Some?
      ensures r.Ok? && r.value.Some? ==>
        Stored(db.domains, r.value.value.id, r.value.value) && r.value.value.name == request.domain.value
      ensures auth.Err? ==> r == Err(auth.error)
      ensures auth.Ok? ==> Stored(db.users, auth.value.id, auth.value) && auth.value.active
      ensures r.Ok? ==> auth.Ok? && DomainErrors(request.domain, domain) == [] && request.domain.Some?
      ensures r.Ok? && r.value.Some? ==>
        Stored(db.domains, r.value.value.id, r.value.value) && r.value.value.name == request.domain.value &&
        r.value.value.userId == auth.value.id
      ensures r.Ok? && r.value.None? ==>
        (forall id :: id in db.domains ==> db.domains[id].name != request.domain.value) &&
        (request.IsFree(domain) || auth.value.subscriptionId.Some?)
    {
      var a := users.Authenticate(request.email, request.password);
      auth := a;
      if a.Err? { return Err(a.error), auth; }
      var name := CheckDomain(request.domain, domain);
      if name.Err? { return Err(name.error), auth; }
      r := FindAndCheck(name.value, request.IsFree(domain), a.value, "domain");
    }

    /** DomainAcquire's insert path: a new domain in the free zone, or in a
      * hosted zone created for it. */
    method InsertNewDomain(name: string, mac: string, request: DomainAcquireRequest, userId: int, isFree: bool,
                           updateToken: string, now: int)
      returns (r: Result<DomainRow, Error>, ghost newId: int, ghost zone: ZoneReply)
      requires Valid()
      modifies db, dns
      ensures Valid()
      ensures db.users == old(db.users) && db.actions == old(db.actions) && dns.commits == old(dns.commits)
      ensures dns.deletedZones == old(dns.deletedZones)
      ensures isFree ==> dns.createdZones == old(dns.createdZones)
      ensures r.Ok? ==>
        (r.value == AcquiredDomain(name, mac, request.deviceName, request.deviceTitle, userId, updateToken, now,
                                   r.value.hostedZoneId) &&
         (isFree ==> r.value.hostedZoneId == freeHostedZoneId) &&
         (!isFree ==> dns.createdZones == old(dns.createdZones) + [name] &&
                      CreateZoneResult(zone) == Ok(r.value.hostedZoneId)) &&
         newId !in old(db.domains) && db.domains == old(db.domains)[newId := r.value.(id := newId)])
      ensures r.Err? ==> db.domains == old(db.domains)
    {
      newId, zone := 0, ZoneCreated("");
      var dom := new Domain.FromRow(AcquiredDomain(name, mac, request.deviceName, request.deviceTitle, userId,
                                                   updateToken, now, freeHostedZoneId));
      if !isFree {
        var id;
        id, zone := dns.CreateHostedZone(dom.name);
        if id.Err? { return Err(id.error), newId, zone; }
        dom.hostedZoneId := id.value;
      }
      var inserted := db.InsertDomain(dom.Row());
      if inserted.Err? { return Err(inserted.error), newId, zone; }
      newId := inserted.value;
      return Ok(dom.Row()), newId, zone;
    }

    /** DomainAcquire's assignments of the device name and title and LastUpdate. */
    static method SetDevice(dom: Domain, deviceName: Option<string>, deviceTitle: Option<string>, now: int)
      modifies dom
      ensures dom.Row() == old(dom.Row()).(deviceName := deviceName, deviceTitle := deviceTitle, lastUpdate := Some(now))
    {
      dom.deviceName, dom.deviceTitle, dom.lastUpdate := deviceName, deviceTitle, Some(now);
    }

    /** DomainAcquire's update path: the caller's own domain gets the new
      * token, device fields and LastUpdate. */
    method RefreshOwnDomain(d: DomainRow, mac: string, request: DomainAcquireRequest, updateToken: string, now: int)
      returns (r: Result<DomainRow, Error>)
      requires Valid()
      modifies db
      ensures Valid()
      ensures db.users == old(db.users) && db.actions == old(db.actions)
      ensures r.Ok? ==>
        (r.value == d.(updateToken := Some(updateToken), deviceMacAddress := Some(mac), deviceName := request.deviceName,
                       deviceTitle := request.deviceTitle, lastUpdate := Some(now)) &&
         db.domains == (if d.id in old(db.domains) then old(db.domains)[d.id := r.value] else old(db.domains)))
      ensures r.Err? ==> db.domains == old(db.domains)
    {
      var dom := new Domain.FromRow(d);
      dom.updateToken, dom.deviceMacAddress := Some(updateToken), Some(mac);
      SetDevice(dom, request.deviceName, request.deviceTitle, now);
      var err := db.UpdateDomain(dom.Row());
      if err.Some? { return Err(err.value); }
      return Ok(dom.Row());
    }

    /** DomainAcquire: authenticate, validate, findAndCheck; the caller's own
      * domain is updated in place with a fresh token, any other name inserted. */
    method DomainAcquire(request: DomainAcquireRequest, domainField: string, now: int)
      returns (r: Result<DomainRow, Error>, ghost auth: Result<UserRow, Error>, ghost existing: Option<DomainRow>,
               ghost stored: DomainRow, ghost zone: ZoneReply)
      requires Valid()
      modifies db, dns
      ensures Valid()
      ensures db.users == old(db.users) && db.actions == old(db.actions)
      ensures dns.commits == old(dns.commits) && dns.deletedZones == old(dns.deletedZones)
      ensures auth.Err? ==> r == Err(auth.error) && db.domains == old(db.domains) && dns.createdZones == old(dns.createdZones)
      ensures auth.Ok? ==> Stored(db.users, auth.value.id, auth.value) && auth.value.active
      ensures auth.Ok? && !AcquirePasses(request.domain, domainField, domain, request.deviceMacAddress, request.deviceName,
                                         request.deviceTitle) ==>
        (r.Err? && r.error.ParameterError? && db.domains == old(db.domains) && dns.createdZones == old(dns.createdZones))
      ensures r.Ok? ==> auth.Ok? && Acquired(request, auth.value, now, old(db.domains), db.domains,
                                             old(dns.createdZones), dns.createdZones, existing, stored, zone, r.value)
    {
      existing, zone := None, ZoneCreated("");
      stored := AcquiredDomain("", "", None, None, 0, "", now, "");
      var a := users.Authenticate(request.email, request.password);
      auth := a;
      if a.Err? { return Err(a.error), auth, existing, stored, zone; }
      r, existing, stored, zone := AcquireFor(request, domainField, a.value, now);
    }

    /** What a successful DomainAcquire did: the stored domain carries the
      * request's name and device fields, the caller as owner, a token and
      * LastUpdate; either the caller's own domain was updated, or a name
      * nobody held was inserted, in the free zone or in a zone created for it
      * (which needs a subscription) under the id the provider answered. The result is the stored domain with its
      * user label, and no id when it was inserted. */
    ghost predicate Acquired(request: DomainAcquireRequest, user: UserRow, now: int,
                             domains0: map<int, DomainRow>, domains1: map<int, DomainRow>,
                             zones0: seq<string>, zones1: seq<string>,
                             existing: Option<DomainRow>, stored: DomainRow, zone: ZoneReply, result: DomainRow)
      reads request
    {
      request.domain.Some? && request.deviceMacAddress.Some? &&
      stored.name == request.domain.value && stored.userId == user.id && stored.updateToken.Some? &&
      stored.deviceMacAddress == request.deviceMacAddress && stored.deviceName == request.deviceName &&
      stored.deviceTitle == request.deviceTitle && stored.lastUpdate == Some(now) &&
      domains1 == domains0[stored.id := stored] &&
      (existing.Some? ==>
        Stored(domains0, existing.value.id, existing.value) && existing.value.userId == user.id &&
        stored == existing.value.(updateToken := stored.updateToken, deviceMacAddress := request.deviceMacAddress,
                                  deviceName := request.deviceName, deviceTitle := request.deviceTitle,
                                  lastUpdate := Some(now)) &&
        zones1 == zones0 && result == stored.BackwardCompatible(domain)) &&
      (existing.None? ==>
        (forall id :: id in domains0 ==> domains0[id].name != stored.name) &&
        stored.id !in domains0 && result == stored.(id := 0).BackwardCompatible(domain) &&
        (IsFree(stored.name, domain) ==> stored.hostedZoneId == freeHostedZoneId && zones1 == zones0) &&
        (!IsFree(stored.name, domain) ==>
          zones1 == zones0 + [stored.name] && CreateZoneResult(zone) == Ok(stored.hostedZoneId) &&
          user.subscriptionId.Some?))
    }

    /** DomainAcquire after authentication. */
    method AcquireFor(request: DomainAcquireRequest, domainField: string, user: UserRow, now: int)
      returns (r: Result<DomainRow, Error>, ghost existing: Option<DomainRow>, ghost stored: DomainRow,
               ghost zone: ZoneReply)
      requires Valid()
      modifies db, dns
      ensures Valid()
      ensures db.users == old(db.users) && db.actions == old(db.actions)
      ensures dns.commits == old(dns.commits) && dns.deletedZones == old(dns.deletedZones)
      ensures !AcquirePasses(request.domain, domainField, domain, request.deviceMacAddress, request.deviceName,
                             request.deviceTitle) ==>
        (r.Err? && r.error.ParameterError? && db.domains == old(db.domains) && dns.createdZones == old(dns.createdZones))
      ensures r.Ok? ==> Acquired(request, user, now, old(db.domains), db.domains, old(dns.createdZones), dns.createdZones,
                                 existing, stored, zone, r.value)
    {
      existing, zone := None, ZoneCreated("");
      stored := AcquiredDomain("", "", None, None, 0, "", now, "");
      var checked := CheckAcquire(request.domain, domainField, domain, request.deviceMacAddress, request.deviceName,
                                  request.deviceTitle);
      if checked.Err? { return Err(checked.error), existing, stored, zone; }
      var (name, mac) := checked.value;
      var isFree := IsFree(name, domain);
      var found := FindAndCheck(name, isFree, user, domainField);
      if found.Err? { return Err(found.error), existing, stored, zone; }
      existing := found.value;
      r, stored, zone := SaveAcquired(name, mac, request, user, isFree, found.value, now);
    }

    /** DomainAcquire's write: a fresh token, then the insert or the update path. */
    method SaveAcquired(name: string, mac: string, request: DomainAcquireRequest, user: UserRow, isFree: bool,
                        existing: Option<DomainRow>, now: int)
      returns (r: Result<DomainRow, Error>, ghost stored: DomainRow, ghost zone: ZoneReply)
      requires Valid() && request.domain == Some(name) && request.deviceMacAddress == Some(mac)
      requires isFree == IsFree(name, domain)
      requires existing.Some? ==>
        Stored(db.domains, existing.value.id, existing.value) && existing.value.name == name && existing.value.userId == user.id
      requires existing.None? ==>
        (forall id :: id in db.domains ==> db.domains[id].name != name) && (isFree || user.subscriptionId.Some?)
      modifies db, dns
      ensures Valid()
      ensures db.users == old(db.users) && db.actions == old(db.actions)
      ensures dns.commits == old(dns.commits) && dns.deletedZones == old(dns.deletedZones)
      ensures r.Ok? ==> Acquired(request, user, now, old(db.domains), db.domains, old(dns.createdZones), dns.createdZones,
                                 existing, stored, zone, r.value)
    {
      stored, zone := AcquiredDomain("", "", None, None, 0, "", now, ""), ZoneCreated("");
      var updateToken: string := *;
      var saved;
      if existing.None? {
        ghost var newId;
        saved, newId, zone := InsertNewDomain(name, mac, request, user.id, isFree, updateToken, now);
        if saved.Err? { return Err(saved.error), stored, zone; }
        stored := saved.value.(id := newId);
      } else {
        saved := RefreshOwnDomain(existing.value, mac, request, updateToken, now);
        if saved.Err? { return Err(saved.error), stored, zone; }
        stored := saved.value;
      }
      var dom := new Domain.FromRow(saved.value);
      dom.BackwardCompatibleDomain(domain);
      return Ok(dom.Row()), stored, zone;
    }

    /** The second half of Update: copy the request into the domain, rewrite
      * DNS when the detector reports a change, stamp and save. */
    method ApplyUpdate(d: DomainRow, request: DomainUpdateRequest, ip: string, webProtocol: string, webLocalPort: int,
                       now: int) returns (r: Result<DomainRow, Error>)
      requires Valid() && d.id in db.domains
      modifies db, dns
      ensures Valid()
      ensures db.users == old(db.users) && db.actions == old(db.actions)
      ensures dns.createdZones == old(dns.createdZones) && dns.deletedZones == old(dns.deletedZones)
      ensures r.Err? ==> db.domains == old(db.domains)
      ensures r.Ok? ==>
        (var n := Refreshed(d, request, ip, webProtocol, webLocalPort);
         db.domains == old(db.domains)[d.id := n.(lastUpdate := Some(now))] &&
         r.value == n.(lastUpdate := Some(now)).BackwardCompatible(domain) &&
         (DnsChanged(d, request, ip) ==> dns.commits == old(dns.commits) + RecordUpdate(n, parse, dns.txtLimit)) &&
         (!DnsChanged(d, request, ip) ==> dns.commits == old(dns.commits)))
    {
      var ipv4: Option<string> := None;
      var localIpv4: Option<string> := None;
      if request.ipv4Enabled {
        ipv4 := Some(ip);
        localIpv4 := request.localIp;
      }
      var ipv6: Option<string> := None;
      if request.ipv6Enabled {
        ipv6 := request.ipv6;
      }
      var dom := new Domain.FromRow(d);
      var changed := Change.Changed(dom.mapLocalAddress, dom.ip, dom.ipv6, dom.dkimKey, dom.localIp,
                                    request.mapLocalAddress, ipv4, ipv6, request.dkimKey, localIpv4);
      SetAddresses(dom, ipv4, localIpv4, ipv6);
      SetDeviceValues(dom, request);
      SetWebAccess(dom, webProtocol, webLocalPort, request.webPort);
      r := SaveUpdated(dom.Row(), changed, now);
    }

    /** Update's assignments of the addresses to the domain. */
    static method SetAddresses(dom: Domain, ipv4: Option<string>, localIpv4: Option<string>, ipv6: Option<string>)
      modifies dom
      ensures dom.Row() == old(dom.Row()).(ip := ipv4, localIp := localIpv4, ipv6 := ipv6)
    {
      dom.ip, dom.localIp, dom.ipv6 := ipv4, localIpv4, ipv6;
    }

    /** Update's assignments of the DKIM key, the local-address flag and the
      * platform version. */
    static method SetDeviceValues(dom: Domain, request: DomainUpdateRequest)
      modifies dom
      ensures dom.Row() == old(dom.Row()).(dkimKey := request.dkimKey, mapLocalAddress := request.mapLocalAddress,
                                           platformVersion := request.platformVersion)
    {
      dom.dkimKey, dom.mapLocalAddress, dom.platformVersion := request.dkimKey, request.mapLocalAddress, request.platformVersion;
    }

    /** Update's assignments of the web access values. */
    static method SetWebAccess(dom: Domain, webProtocol: string, webLocalPort: int, webPort: Option<int>)
      modifies dom
      ensures dom.Row() == old(dom.Row()).(webProtocol := Some(webProtocol), webLocalPort := Some(webLocalPort),
                                           webPort := webPort)
    {
      dom.webProtocol, dom.webLocalPort, dom.webPort := Some(webProtocol), Some(webLocalPort), webPort;
    }

    /** The end of Update: DNS first when it changed, then LastUpdate and the row. */
    method SaveUpdated(n: DomainRow, changed: bool, now: int) returns (r: Result<DomainRow, Error>)
      requires Valid() && n.id in db.domains
      modifies db, dns
      ensures Valid()
      ensures db.users == old(db.users) && db.actions == old(db.actions)
      ensures dns.createdZones == old(dns.createdZones) && dns.deletedZones == old(dns.deletedZones)
      ensures r.Err? ==> db.domains == old(db.domains)
      ensures !changed ==> dns.commits == old(dns.commits)
      ensures r.Ok? ==>
        (db.domains == old(db.domains)[n.id := n.(lastUpdate := Some(now))] &&
         r.value == n.(lastUpdate := Some(now)).BackwardCompatible(domain) &&
         (changed ==> dns.commits == old(dns.commits) + RecordUpdate(n, parse, dns.txtLimit)))
    {
      if changed {
        var err := dns.UpdateDomainRecords(n);
        if err.Some? { return Err(err.value); }
      }
      var dom := new Domain.FromRow(n);
      dom.lastUpdate := Some(now);
      var err := db.UpdateDomain(dom.Row());
      if err.Some? { return Err(err.value); }
      dom.BackwardCompatibleDomain(domain);
      return Ok(dom.Row());
    }

    /** Update: validate, find the token's domain, copy the request in, rewrite
      * DNS only when the detector reports a change, then stamp and save. */
    method Update(request: DomainUpdateRequest, requestIp: Option<string>, now: int)
      returns (r: Result<DomainRow, Error>, ghost found: Option<DomainRow>)
      requires Valid()
      modifies db, dns
      ensures Valid()
      ensures db.users == old(db.users) && db.actions == old(db.actions)
      ensures dns.createdZones == old(dns.createdZones) && dns.deletedZones == old(dns.deletedZones)
      ensures !UpdatePasses(request, requestIp, parse) ==>
        (r.Err? && r.error.ParameterError? && db.domains == old(db.domains) && dns.commits == old(dns.commits))
      ensures r.Err? ==> db.domains == old(db.domains)
      ensures r.Ok? ==>
        (UpdatePasses(request, requestIp, parse) && found.Some? &&
         Stored(old(db.domains), found.value.id, found.value) && found.value.updateToken == request.token &&
         found.value.userId in db.users && db.users[found.value.userId].active &&
         var ip := IpRule(request.ip, requestIp, parse).1.value;
         var n := Refreshed(found.value, request, ip, WebProtocolRule(request.webProtocol).1.value,
                            PortRule(request.webLocalPort).1.value);
         db.domains == old(db.domains)[found.value.id := n.(lastUpdate := Some(now))] &&
         r.value == n.(lastUpdate := Some(now)).BackwardCompatible(domain) &&
         (DnsChanged(found.value, request, ip) ==> dns.commits == old(dns.commits) + RecordUpdate(n, parse, dns.txtLimit)) &&
         (!DnsChanged(found.value, request, ip) ==> dns.commits == old(dns.commits)))
    {
      found := None;
      var checked := CheckUpdate(request, requestIp, parse);
      if checked.Err? { return Err(checked.error), found; }
      var (token, ip, webProtocol, webLocalPort) := checked.value;
      var d;
      d, found := DomainOfToken(token);
      if d.Err? { return Err(d.error), found; }
      r := ApplyUpdate(d.value, request, ip, webProtocol, webLocalPort, now);
    }
  }
}
