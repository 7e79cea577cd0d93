// The domain record, the derivations the DNS layer and the API read from it,
// and the two request helpers that reconcile the deprecated user label with
// full domain names.

module DomainModel {
  import opened Basics

  /** A domain as stored; instants are whole seconds. */
  datatype DomainRow = DomainRow(
    id: int,
    deprecatedUserDomain: string,
    ip: Option<string>,
    ipv6: Option<string>,
    dkimKey: Option<string>,
    localIp: Option<string>,
    mapLocalAddress: bool,
    updateToken: Option<string>,
    lastUpdate: Option<int>,
    deviceMacAddress: Option<string>,
    deviceName: Option<string>,
    deviceTitle: Option<string>,
    platformVersion: Option<string>,
    webProtocol: Option<string>,
    webPort: Option<int>,
    webLocalPort: Option<int>,
    userId: int,
    hostedZoneId: string,
    name: string,
    nameServers: seq<string>,
    timestamp: Option<int>)
  {
    /** The fully qualified name: Name with a trailing dot. */
    function FQDN(): (r: string)
      ensures |r| == |name| + 1 && HasPrefix(r, name) && r[|name|] == '.'
    {
      name + "."
    }

    /** The address published for the domain: the local one when mapping is on. */
    function AccessIp(): (r: Option<string>)
      ensures mapLocalAddress ==> r == localIp
      ensures !mapLocalAddress ==> r == ip
    {
      if mapLocalAddress then localIp else ip
    }

    /** The A-record address: the access address when it parses as IPv4. */
    function DnsIpv4(parse: IpParser): (r: Option<string>)
      ensures r.Some? <==> AccessIp().Some? && parse(AccessIp().value) == V4
      ensures r.Some? ==> r == AccessIp()
    {
      var access := AccessIp();
      if access.Some? && parse(access.value) == V4 then access else None
    }

    /** The AAAA-record address: Ipv6 when it is a pure IPv6 address, else the
      * access address when that is one, else none. */
    function DnsIpv6(parse: IpParser): (r: Option<string>)
      ensures ipv6.Some? && parse(ipv6.value) == V6 ==> r == ipv6
      ensures !(ipv6.Some? && parse(ipv6.value) == V6) ==>
                r == (if AccessIp().Some? && parse(AccessIp().value) == V6 then AccessIp() else None)
      ensures r.Some? ==> parse(r.value) == V6
    {
      if ipv6.Some? && parse(ipv6.value) == V6 then ipv6
      else
        var access := AccessIp();
        if access.Some? && parse(access.value) == V6 then access else None
    }

    /** The record after BackwardCompatibleDomain: the deprecated label becomes
      * the text before the first "."+main when Name ends with it. */
    function BackwardCompatible(mainDomain: string): (r: DomainRow)
      ensures IsFree(name, mainDomain) ==> r == this.(deprecatedUserDomain := TextBefore(name, "." + mainDomain))
      ensures !IsFree(name, mainDomain) ==> r == this
    {
      var suffix := "." + mainDomain;
      if HasSuffix(name, suffix) then this.(deprecatedUserDomain := TextBefore(name, suffix)) else this
    }
  }

  /** A name is free (in the shared zone) iff it ends with "."+main. */
  function IsFree(domain: string, mainDomain: string): (r: bool)
    ensures r <==> |domain| >= |mainDomain| + 1 && domain[|domain| - |mainDomain| - 1] == '.'
                   && domain[|domain| - |mainDomain|..] == mainDomain
  {
    var suffix := "." + mainDomain;
    assert HasSuffix(domain, suffix) ==> domain[|domain| - |suffix|..][0] == '.';
    assert |domain| >= |suffix| ==>
      domain[|domain| - |suffix|..] == [domain[|domain| - |suffix|]] + domain[|domain| - |mainDomain|..];
    HasSuffix(domain, suffix)
  }

  /** The main domain itself is never free: it is too short for the suffix. */
  lemma MainDomainNotFree(mainDomain: string)
    ensures !IsFree(mainDomain, mainDomain)
  {
  }

  /** A label under the main domain is free. */
  lemma LabelUnderMainIsFree(userLabel: string, mainDomain: string)
    ensures IsFree(userLabel + "." + mainDomain, mainDomain)
  {
    var d := userLabel + "." + mainDomain;
    assert d[|d| - |mainDomain|..] == mainDomain;
  }

  /** A domain object whose BackwardCompatibleDomain assigns a field. */
  class Domain {
    var id: int
    var deprecatedUserDomain: string
    var ip: Option<string>
    var ipv6: Option<string>
    var dkimKey: Option<string>
    var localIp: Option<string>
    var mapLocalAddress: bool
    var updateToken: Option<string>
    var lastUpdate: Option<int>
    var deviceMacAddress: Option<string>
    var deviceName: Option<string>
    var deviceTitle: Option<string>
    var platformVersion: Option<string>
    var webProtocol: Option<string>
    var webPort: Option<int>
    var webLocalPort: Option<int>
    var userId: int
    var hostedZoneId: string
    var name: string
    var nameServers: seq<string>
    var timestamp: Option<int>

    function Row(): DomainRow
      reads this
    {
      DomainRow(id, deprecatedUserDomain, ip, ipv6, dkimKey, localIp, mapLocalAddress, updateToken,
                lastUpdate, deviceMacAddress, deviceName, deviceTitle, platformVersion, webProtocol,
                webPort, webLocalPort, userId, hostedZoneId, name, nameServers, timestamp)
    }

    constructor FromRow(r: DomainRow)
      ensures Row() == r
    {
      id, deprecatedUserDomain, ip, ipv6, dkimKey := r.id, r.deprecatedUserDomain, r.ip, r.ipv6, r.dkimKey;
      localIp, mapLocalAddress, updateToken, lastUpdate := r.localIp, r.mapLocalAddress, r.updateToken, r.lastUpdate;
      deviceMacAddress, deviceName, deviceTitle := r.deviceMacAddress, r.deviceName, r.deviceTitle;
      platformVersion, webProtocol, webPort, webLocalPort := r.platformVersion, r.webProtocol, r.webPort, r.webLocalPort;
      userId, hostedZoneId, name, nameServers, timestamp := r.userId, r.hostedZoneId, r.name, r.nameServers, r.timestamp;
    }

    method BackwardCompatibleDomain(mainDomain: string)
      modifies this
      ensures Row() == old(Row()).BackwardCompatible(mainDomain)
    {
      var suffix := "." + mainDomain;
      if HasSuffix(name, suffix) {
        deprecatedUserDomain := TextBefore(name, suffix);
      }
    }
  }

  /** The body of a domain acquire request. */
  class DomainAcquireRequest {
    var deprecatedUserDomain: Option<string>
    var domain: Option<string>
    var password: Option<string>
    var email: Option<string>
    var deviceMacAddress: Option<string>
    var deviceName: Option<string>
    var deviceTitle: Option<string>

    constructor (deprecatedUserDomain: Option<string>, domain: Option<string>, password: Option<string>,
                 email: Option<string>, deviceMacAddress: Option<string>, deviceName: Option<string>,
                 deviceTitle: Option<string>)
      ensures this.deprecatedUserDomain == deprecatedUserDomain && this.domain == domain
      ensures this.password == password && this.email == email
      ensures this.deviceMacAddress == deviceMacAddress && this.deviceName == deviceName
      ensures this.deviceTitle == deviceTitle
    {
      this.deprecatedUserDomain, this.domain, this.password, this.email := deprecatedUserDomain, domain, password, email;
      this.deviceMacAddress, this.deviceName, this.deviceTitle := deviceMacAddress, deviceName, deviceTitle;
    }

    /** A request naming only the deprecated userLabel gets the full domain name;
      * the userLabel, when present, wins over an already set domain. */
    method ForwardCompatibleDomain(mainDomain: string)
      modifies this
      ensures deprecatedUserDomain.Some? ==> domain == Some(deprecatedUserDomain.value + "." + mainDomain)
      ensures deprecatedUserDomain.None? ==> domain == old(domain)
      ensures deprecatedUserDomain == old(deprecatedUserDomain) && password == old(password)
      ensures email == old(email) && deviceMacAddress == old(deviceMacAddress)
      ensures deviceName == old(deviceName) && deviceTitle == old(deviceTitle)
    {
      if deprecatedUserDomain.Some? {
        domain := Some(deprecatedUserDomain.value + "." + mainDomain);
      }
    }
  }

  /** The body of a domain availability request. */
  datatype DomainAvailabilityRequest = DomainAvailabilityRequest(
    domain: Option<string>, password: Option<string>, email: Option<string>)
  {
    /** The requested domain is free; Domain is dereferenced so it must be set. */
    function IsFree(mainDomain: string): (r: bool)
      requires domain.Some?
      ensures r <==> HasSuffix(domain.value, "." + mainDomain)
      ensures domain == Some(mainDomain) ==> !r
    {
      HasSuffix(domain.value, "." + mainDomain)
    }
  }

  /** The request helper and the model helper agree on the same strings. */
  lemma AvailabilityAgreesWithIsFree(request: DomainAvailabilityRequest, mainDomain: string)
    requires request.domain.Some?
    ensures request.IsFree(mainDomain) == IsFree(request.domain.value, mainDomain)
  {
  }

  /** Label and name round trip: the name ForwardCompatibleDomain builds from a
    * userLabel without dots is free, and BackwardCompatibleDomain reads the same
    * userLabel back out of it. */
  lemma {:induction false} ForwardBackwardRoundTrip(d: DomainRow, userLabel: string, mainDomain: string)
    requires forall i :: 0 <= i < |userLabel| ==> userLabel[i] != '.'
    ensures IsFree(userLabel + "." + mainDomain, mainDomain)
    ensures d.(name := userLabel + "." + mainDomain).BackwardCompatible(mainDomain).deprecatedUserDomain == userLabel
  {
    var name := userLabel + "." + mainDomain;
    var sep := "." + mainDomain;
    LabelUnderMainIsFree(userLabel, mainDomain);
    assert name == userLabel + sep;
    assert OccursAt(name, sep, |userLabel|) by {
      assert name[|userLabel|..|userLabel| + |sep|] == sep;
    }
    forall k | 0 <= k < |userLabel|
      ensures !OccursAt(name, sep, k)
    {
      assert name[k] == userLabel[k];
      assert k + |sep| <= |name| ==> name[k..k + |sep|][0] == name[k];
    }
    TextBeforeFirst(name, sep, |userLabel|);
    assert name[..|userLabel|] == userLabel;
  }
}
