// The certbot DNS-01 hook service (backend/service/certbot.go): a device
// holding a domain's update token may publish and remove challenge records,
// but only for names inside its own domain.

module Certbot {
  import opened Basics
  import opened Errors
  import opened DomainModel
  import opened Store

  const OnlySameDomain := "only same domain is allowed"

  /** The guard: "." + the domain's name occurs somewhere in the fqdn. It is
    * containment, not a suffix test. */
  predicate SameDomain(fqdn: string, name: string) {
    Contains(fqdn, "." + name)
  }

  /** One call of the certbot DNS interface. */
  datatype RecordCall = RecordCall(hostedZoneId: string, name: string, value: string)

  /** The DNS side as the service sees it: the calls the provider accepted. */
  class CertbotDns {
    var created: seq<RecordCall>
    var deleted: seq<RecordCall>

    constructor ()
      ensures created == [] && deleted == []
    {
      created, deleted := [], [];
    }

    method CreateCertbotRecord(hostedZoneId: string, name: string, value: string) returns (err: Option<Error>)
      modifies this
      ensures err.None? ==> created == old(created) + [RecordCall(hostedZoneId, name, value)]
      ensures err.Some? ==> created == old(created)
      ensures deleted == old(deleted)
    {
      if * { return Some(Failure("dns error")); }
      created := created + [RecordCall(hostedZoneId, name, value)];
      return None;
    }

    method DeleteCertbotRecord(hostedZoneId: string, name: string, value: string) returns (err: Option<Error>)
      modifies this
      ensures err.None? ==> deleted == old(deleted) + [RecordCall(hostedZoneId, name, value)]
      ensures err.Some? ==> deleted == old(deleted)
      ensures created == old(created)
    {
      if * { return Some(Failure("dns error")); }
      deleted := deleted + [RecordCall(hostedZoneId, name, value)];
      return None;
    }
  }

  class Certbot {
    const db: Db
    const dns: CertbotDns

    ghost predicate Valid()
      reads this, db
    {
      db.Valid()
    }

    /** Some domain holds the token: the service reads the found domain's
      * name without a nil check, so callers must present a known token. */
    ghost predicate KnownToken(token: string)
      reads this, db
    {
      exists id :: id in db.domains && db.domains[id].updateToken == Some(token)
    }

    constructor (db: Db, dns: CertbotDns)
      requires db.Valid()
      ensures Valid() && this.db == db && this.dns == dns
    {
      this.db, this.dns := db, dns;
    }

    /** The domain holding the token, or the database error. */
    method DomainOfToken(token: string) returns (r: Result<DomainRow, Error>)
      requires Valid() && KnownToken(token)
      ensures r.Err? ==> r.error == DbFailure
      ensures r.Ok? ==> Stored(db.domains, r.value.id, r.value) && r.value.updateToken == Some(token)
    {
      var found := db.GetDomainByToken(token);
      if found.Err? { return Err(found.error); }
      if found.value.None? {
        assert false;
      }
      return Ok(found.value.value);
    }

    /** Present: publish the challenge value under fqdn in the domain's zone,
      * when fqdn lies within the domain. */
    method Present(token: string, fqdn: string, value: string) returns (err: Option<Error>, ghost domain: Option<DomainRow>)
      requires Valid() && KnownToken(token)
      modifies dns
      ensures dns.deleted == old(dns.deleted)
      ensures domain.None? ==> err == Some(DbFailure) && dns.created == old(dns.created)
      ensures domain.Some? ==> Stored(db.domains, domain.value.id, domain.value) && domain.value.updateToken == Some(token)
      ensures domain.Some? && !SameDomain(fqdn, domain.value.name) ==>
        err == Some(Failure(OnlySameDomain)) && dns.created == old(dns.created)
      ensures err.None? <==> (domain.Some? && SameDomain(fqdn, domain.value.name) &&
                              dns.created == old(dns.created) + [RecordCall(domain.value.hostedZoneId, fqdn, value)])
      ensures err.Some? ==> dns.created == old(dns.created)
    {
      domain := None;
      var found := DomainOfToken(token);
      if found.Err? { return Some(found.error), domain; }
      var d := found.value;
      domain := Some(d);
      if !SameDomain(fqdn, d.name) {
        return Some(Failure(OnlySameDomain)), domain;
      }
      err := dns.CreateCertbotRecord(d.hostedZoneId, fqdn, value);
    }

    /** CleanUp: the same guard, then remove the challenge record. */
    method CleanUp(token: string, fqdn: string, value: string) returns (err: Option<Error>, ghost domain: Option<DomainRow>)
      requires Valid() && KnownToken(token)
      modifies dns
      ensures dns.created == old(dns.created)
      ensures domain.None? ==> err == Some(DbFailure) && dns.deleted == old(dns.deleted)
      ensures domain.Some? ==> Stored(db.domains, domain.value.id, domain.value) && domain.value.updateToken == Some(token)
      ensures domain.Some? && !SameDomain(fqdn, domain.value.name) ==>
        err == Some(Failure(OnlySameDomain)) && dns.deleted == old(dns.deleted)
      ensures err.None? <==> (domain.Some? && SameDomain(fqdn, domain.value.name) &&
                              dns.deleted == old(dns.deleted) + [RecordCall(domain.value.hostedZoneId, fqdn, value)])
      ensures err.Some? ==> dns.deleted == old(dns.deleted)
    {
      domain := None;
      var found := DomainOfToken(token);
      if found.Err? { return Some(found.error), domain; }
      var d := found.value;
      domain := Some(d);
      if !SameDomain(fqdn, d.name) {
        return Some(Failure(OnlySameDomain)), domain;
      }
      err := dns.DeleteCertbotRecord(d.hostedZoneId, fqdn, value);
    }
  }

  /** A challenge name under the domain passes the guard. */
  lemma SubdomainPasses(host: string, name: string)
    ensures SameDomain(host + "." + name, name)
  {
    var s := host + "." + name;
    assert s[|host|..|host| + |"." + name|] == "." + name;
    assert OccursAt(s, "." + name, |host|);
  }

  /** The guard is containment: "." + name anywhere in the fqdn passes, also
    * followed by more text, so a name of another zone that embeds it passes. */
  lemma ContainmentNotSuffix(prefix: string, name: string, rest: string)
    ensures SameDomain(prefix + "." + name + rest, name)
  {
    var s := prefix + "." + name + rest;
    assert s[|prefix|..|prefix| + |"." + name|] == "." + name;
    assert OccursAt(s, "." + name, |prefix|);
  }

  /** A name that is not preceded by a dot in the fqdn fails the guard:
    * "acme-123.11test.syncloud.it" is not within "1test.syncloud.it". */
  lemma LongerLabelFails()
    ensures !SameDomain("acme-123.11test.syncloud.it", "1test.syncloud.it")
  {
    var s := "acme-123.11test.syncloud.it";
    var p := ".1test.syncloud.it";
    assert "." + "1test.syncloud.it" == p;
    forall k | 0 <= k <= |s| - |p|
      ensures !OccursAt(s, p, k)
    {
      if k == 8 {
        NoOccurrenceAt(s, p, k, 2);
      } else {
        NoOccurrenceAt(s, p, k, 0);
      }
    }
  }
}
