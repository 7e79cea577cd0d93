// The legacy domain service of backend/service/service.go: GetDomain and
// Update, answering with the status-carrying model.Error, and its own copies
// of the change detector's Changed and Equals.

module LegacyService {
  import opened Basics
  import opened Errors
  import opened DomainModel
  import opened Store
  import M = ModelError
  import V = Validation
  import ServiceValidation
  import Change
  import Domains

  const UnknownUpdateToken := "unknown domain update token"

  /** Equals: both absent, or both present with the same text. */
  function Equals(left: Option<string>, right: Option<string>): (r: bool)
    ensures r <==> left == right
  {
    if left.None? && right.None? then true
    else if left.None? || right.None? then false
    else left.value == right.value
  }

  /** Changed: the map-local flag differs or some address or key is not Equals. */
  function Changed(
    existingMapLocalAddress: bool, existingIp: Option<string>, existingIpv6: Option<string>,
    existingDkimKey: Option<string>, existingLocalIp: Option<string>,
    newMapLocalAddress: bool, newIp: Option<string>, newIpv6: Option<string>,
    newDkimKey: Option<string>, newLocalIp: Option<string>): (r: bool)
    ensures r <==> (Change.DnsValues(existingMapLocalAddress, existingIp, existingIpv6, existingDkimKey, existingLocalIp)
                    != Change.DnsValues(newMapLocalAddress, newIp, newIpv6, newDkimKey, newLocalIp))
  {
    (existingMapLocalAddress != newMapLocalAddress) ||
    !Equals(existingIp, newIp) ||
    !Equals(existingLocalIp, newLocalIp) ||
    !Equals(existingIpv6, newIpv6) ||
    !Equals(existingDkimKey, newDkimKey)
  }

  /** The two copies of Equals agree on every input. */
  lemma EqualsAgreesWithDetector(left: Option<string>, right: Option<string>)
    ensures Equals(left, right) == Change.Equals(left, right)
  {
  }

  /** The two copies of Changed agree on every input. */
  lemma ChangedAgreesWithDetector(a: Change.DnsValues, b: Change.DnsValues)
    ensures Changed(a.mapLocalAddress, a.ip, a.ipv6, a.dkimKey, a.localIp, b.mapLocalAddress, b.ip, b.ipv6, b.dkimKey, b.localIp)
         == Change.Changed(a.mapLocalAddress, a.ip, a.ipv6, a.dkimKey, a.localIp,
                           b.mapLocalAddress, b.ip, b.ipv6, b.dkimKey, b.localIp)
  {
  }

  /** The domain after Update has copied the request into it: every address
    * is taken as sent, whatever the enable flags say. */
  function Overwritten(d: DomainRow, request: Domains.DomainUpdateRequest, ip: string, webProtocol: string,
                       webLocalPort: int): DomainRow {
    d.(ip := Some(ip), localIp := request.localIp, ipv6 := request.ipv6, dkimKey := request.dkimKey,
       mapLocalAddress := request.mapLocalAddress, platformVersion := request.platformVersion,
       webProtocol := Some(webProtocol), webLocalPort := Some(webLocalPort), webPort := request.webPort)
  }

  /** Update's change test, on the stored values and the request's. */
  function UpdateChanges(d: DomainRow, request: Domains.DomainUpdateRequest, ip: string): bool {
    Changed(d.mapLocalAddress, d.ip, d.ipv6, d.dkimKey, d.localIp,
            request.mapLocalAddress, Some(ip), request.ipv6, request.dkimKey, request.localIp)
  }

  /** The legacy update is the newer one with both address families enabled. */
  lemma OverwrittenIsRefreshedWithBothFamilies(d: DomainRow, request: Domains.DomainUpdateRequest, ip: string,
                                                webProtocol: string, webLocalPort: int)
    ensures var enabled := request.(ipv4Enabled := true, ipv6Enabled := true);
      Overwritten(d, request, ip, webProtocol, webLocalPort) == Domains.Refreshed(d, enabled, ip, webProtocol, webLocalPort) &&
      UpdateChanges(d, request, ip) == Domains.DnsChanged(d, enabled, ip)
  {
  }

  /** Changed is computed before the overwrite, and it holds exactly when the
    * overwrite alters a value that reaches DNS. */
  lemma UpdateChangesIffDnsValuesDiffer(d: DomainRow, request: Domains.DomainUpdateRequest, ip: string,
                                         webProtocol: string, webLocalPort: int)
    ensures UpdateChanges(d, request, ip) <==>
      Domains.DnsValuesOf(d) != Domains.DnsValuesOf(Overwritten(d, request, ip, webProtocol, webLocalPort))
  {
  }

  /** The validation step of Update, with the older validator: the token, the
    * address to store, the protocol and the local port, or status 400 with
    * every message. */
  method CheckUpdate(request: Domains.DomainUpdateRequest, requestIp: Option<string>, parse: IpParser)
    returns (r: Result<(string, string, string, int), M.StatusError>)
    ensures r.Ok? <==> Domains.UpdatePasses(request, requestIp, parse)
    ensures r.Ok? ==>
      (request.token.Some? && V.IpRule(request.ip, requestIp, parse).1.Some? &&
       V.WebProtocolRule(request.webProtocol).1.Some? && V.PortRule(request.webLocalPort).1.Some? &&
       r.value == (request.token.value, V.IpRule(request.ip, requestIp, parse).1.value,
                   V.WebProtocolRule(request.webProtocol).1.value, V.PortRule(request.webLocalPort).1.value))
    ensures r.Err? ==> r.error.statusCode == 400 && r.error.error.None? && r.error.parameterErrors.Some?
  {
    var v := new ServiceValidation.Validator();
    v.Token(request.token);
    var ip := v.Ip(request.ip, requestIp, parse);
    v.LocalIp(request.localIp, parse);
    var webProtocol := v.WebProtocol(request.webProtocol);
    var webLocalPort := v.WebLocalPort(request.webLocalPort);
    if v.HasErrors() {
      var messages := v.ToParametersMessages();
      return Err(M.ParametersError(messages));
    }
    return Ok((request.token.value, ip.value, webProtocol.value, webLocalPort.value));
  }

  /** The DNS side of the legacy service: the domains it asked to publish,
    * with the main domain it passed along. */
  class LegacyDns {
    var updates: seq<(string, DomainRow)>

    constructor ()
      ensures updates == []
    {
      updates := [];
    }

    method UpdateDomain(mainDomain: string, d: DomainRow) returns (err: Option<Error>)
      modifies this
      ensures err.None? ==> updates == old(updates) + [(mainDomain, d)]
      ensures err.Some? ==> updates == old(updates)
    {
      if * { return Some(Failure("dns error")); }
      updates := updates + [(mainDomain, d)];
      return None;
    }
  }

  class Service {
    const db: Db
    const dns: LegacyDns
    const domain: string
    const parse: IpParser

    ghost predicate Valid()
      reads this, db
    {
      db.Valid()
    }

    /** Every domain's owner is stored: the service reads the owner's Active
      * flag without a nil check. */
    ghost predicate OwnersStored()
      reads this, db
    {
      forall id :: id in db.domains ==> db.domains[id].userId in db.users
    }

    constructor (db: Db, dns: LegacyDns, domain: string, parse: IpParser)
      requires db.Valid()
      ensures Valid() && this.db == db && this.dns == dns && this.domain == domain && this.parse == parse
    {
      this.db, this.dns, this.domain, this.parse := db, dns, domain, parse;
    }

    /** GetDomain: the token's domain when its owner is active; the service
      * error "unknown domain update token" (400) for an unknown token or an
      * inactive owner; a database failure as an unknown error (500). */
    method GetDomain(token: string) returns (r: Result<DomainRow, M.StatusError>, ghost found: Option<DomainRow>)
      requires Valid() && OwnersStored()
      ensures found.None? ==>
        r.Err? && (r.error == M.UnknownError(DbFailure) ||
                   forall id :: id in db.domains ==> db.domains[id].updateToken != Some(token))
      ensures found.Some? ==>
        Stored(db.domains, found.value.id, found.value) && found.value.updateToken == Some(token)
      ensures r.Ok? ==> found == Some(r.value) && db.users[r.value.userId].active
      ensures r.Ok? ==> Stored(db.domains, r.value.id, r.value) && r.value.updateToken == Some(token)
      ensures r.Err? ==> r.error == M.UnknownError(DbFailure) || r.error == M.ServiceError(Failure(UnknownUpdateToken))
      ensures r.Err? ==>
        r.error == M.UnknownError(DbFailure) ||
        (r.error == M.ServiceError(Failure(UnknownUpdateToken)) && (found.None? || !db.users[found.value.userId].active))
    {
      found := None;
      var d := db.GetDomainByToken(token);
      if d.Err? { return Err(M.UnknownError(d.error)), found; }
      if d.value.None? { return Err(M.ServiceError(Failure(UnknownUpdateToken))), found; }
      found := d.value;
      var domainRow := d.value.value;
      var user := db.GetUser(domainRow.userId);
      if user.Err? { return Err(M.UnknownError(user.error)), found; }
      if user.value.None? {
        assert false;
      }
      if !user.value.value.active { return Err(M.ServiceError(Failure(UnknownUpdateToken))), found; }
      return Ok(domainRow), found;
    }

    /** Update: validate, look the token up as GetDomain does, overwrite the
      * domain with the request, publish it only when Changed, then stamp
      * LastUpdate and save. The domain is returned as saved. */
    method Update(request: Domains.DomainUpdateRequest, requestIp: Option<string>, now: int)
      returns (r: Result<DomainRow, M.StatusError>, ghost found: Option<DomainRow>)
      requires Valid() && OwnersStored()
      modifies db, dns
      ensures Valid()
      ensures db.users == old(db.users) && db.actions == old(db.actions)
      ensures !Domains.UpdatePasses(request, requestIp, parse) ==>
        (r.Err? && r.error.statusCode == 400 && r.error.parameterErrors.Some? &&
         db.domains == old(db.domains) && dns.updates == old(dns.updates))
      ensures r.Err? ==> db.domains == old(db.domains)
      ensures r.Err? && r.error.statusCode == 400 && r.error.parameterErrors.None? ==>
        r.error == M.ServiceError(Failure(UnknownUpdateToken)) && dns.updates == old(dns.updates)
      ensures r.Ok? ==>
        (Domains.UpdatePasses(request, requestIp, parse) && found.Some? &&
         Stored(old(db.domains), found.value.id, found.value) && found.value.updateToken == request.token &&
         db.users[found.value.userId].active &&
         var ip := V.IpRule(request.ip, requestIp, parse).1.value;
         var n := Overwritten(found.value, request, ip, V.WebProtocolRule(request.webProtocol).1.value,
                              V.PortRule(request.webLocalPort).1.value);
         db.domains == old(db.domains)[found.value.id := n.(lastUpdate := Some(now))] &&
         r.value == n.(lastUpdate := Some(now)) &&
         (UpdateChanges(found.value, request, ip) ==> dns.updates == old(dns.updates) + [(domain, n)]) &&
         (!UpdateChanges(found.value, request, ip) ==> dns.updates == old(dns.updates)))
    {
      found := None;
      var checked := CheckUpdate(request, requestIp, parse);
      if checked.Err? { return Err(checked.error), found; }
      var (token, ip, webProtocol, webLocalPort) := checked.value;
      var d;
      d, found := GetDomain(token);
      if d.Err? { return Err(d.error), found; }
      r := Overwrite(d.value, request, ip, webProtocol, webLocalPort, now);
    }

    /** The second half of Update, on the found domain. */
    method Overwrite(d: DomainRow, request: Domains.DomainUpdateRequest, ip: string, webProtocol: string,
                     webLocalPort: int, now: int) returns (r: Result<DomainRow, M.StatusError>)
      requires Valid() && d.id in db.domains
      modifies db, dns
      ensures Valid()
      ensures db.users == old(db.users) && db.actions == old(db.actions)
      ensures r.Err? ==> db.domains == old(db.domains) && r.error.statusCode == 500
      ensures !UpdateChanges(d, request, ip) ==> dns.updates == old(dns.updates)
      ensures r.Ok? ==>
        (var n := Overwritten(d, request, ip, webProtocol, webLocalPort);
         db.domains == old(db.domains)[d.id := n.(lastUpdate := Some(now))] &&
         r.value == n.(lastUpdate := Some(now)) &&
         (UpdateChanges(d, request, ip) ==> dns.updates == old(dns.updates) + [(domain, n)]))
    {
      var dom := new Domain.FromRow(d);
      var changed := Changed(dom.mapLocalAddress, dom.ip, dom.ipv6, dom.dkimKey, dom.localIp,
                             request.mapLocalAddress, Some(ip), request.ipv6, request.dkimKey, request.localIp);
      Domains.Domains.SetAddresses(dom, Some(ip), request.localIp, request.ipv6);
      Domains.Domains.SetDeviceValues(dom, request);
      Domains.Domains.SetWebAccess(dom, webProtocol, webLocalPort, request.webPort);
      if changed {
        var err := dns.UpdateDomain(domain, dom.Row());
        if err.Some? { return Err(M.UnknownError(err.value)); }
      }
      dom.lastUpdate := Some(now);
      var err := db.UpdateDomain(dom.Row());
      if err.Some? { return Err(M.UnknownError(err.value)); }
      return Ok(dom.Row());
    }
  }
}
