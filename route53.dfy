// The Route 53 adapter: DNS record changes for a domain, the DKIM record
// split into TXT-sized chunks, certbot challenge records and hosted zones.
// The AWS client is foreign: each call may fail, and accepted change batches
// are recorded in order.

module Route53 {
  import opened Basics
  import opened Errors
  import opened DomainModel

  const DefaultIpv4 := "127.0.0.1"
  const DefaultIpv6 := "fe80::"
  const DefaultDkim := "none"
  const DefaultMx := "1 mx"
  const DefaultSpf := "\"v=spf1 -all\""
  const DefaultTtl := 600
  const CertbotTtl := 10
  const DomainSpf := "\"v=spf1 a mx -all\""
  const DkimPrefix := "v=DKIM1; k=rsa; p="

  datatype ResourceRecord = ResourceRecord(value: string)

  /** One change of a change batch. */
  datatype RecordChange = RecordChange(action: string, name: string, recordType: string, ttl: int,
                                       records: seq<ResourceRecord>)

  /** A change batch the provider accepted for a hosted zone. */
  datatype Commit = Commit(changes: seq<RecordChange>, hostedZoneId: string)

  /** What the provider answered to a hosted-zone creation. */
  datatype ZoneReply = ZoneCreated(rawId: string) | ZoneFailed(error: Error)

  // ------------------------------------------------------------ splitBy

  /** Consecutive chunks of width w, the last one possibly shorter. */
  function Chunks(s: string, w: nat): seq<string>
    requires w >= 1
    decreases |s|
  {
    if |s| <= w then [s] else [s[..w]] + Chunks(s[w..], w)
  }

  /** splitBy's result: chunks of n, except that for n = 1 the chunks after
    * the first have width 2 (the loop restarts its counter at 2). */
  function SplitBySpec(s: string, n: nat): seq<string>
    requires n >= 1
  {
    if |s| <= n then [s] else [s[..n]] + Chunks(s[n..], if n == 1 then 2 else n)
  }

  lemma {:induction false} ChunksConcat(s: string, w: nat)
    requires w >= 1
    ensures Concat(Chunks(s, w)) == s
    decreases |s|
  {
    if |s| > w {
      ChunksConcat(s[w..], w);
      assert ([s[..w]] + Chunks(s[w..], w))[1..] == Chunks(s[w..], w);
      assert s[..w] + s[w..] == s;
    }
  }

  lemma {:induction false} ChunksWidths(s: string, w: nat)
    requires w >= 1
    ensures |Chunks(s, w)| >= 1
    ensures forall k :: 0 <= k < |Chunks(s, w)| - 1 ==> |Chunks(s, w)[k]| == w
    ensures |Chunks(s, w)[|Chunks(s, w)| - 1]| <= w
    ensures |s| > 0 ==> |Chunks(s, w)[|Chunks(s, w)| - 1]| > 0
    decreases |s|
  {
    if |s| > w {
      ChunksWidths(s[w..], w);
      var rest := Chunks(s[w..], w);
      assert Chunks(s, w) == [s[..w]] + rest;
      forall k | 0 <= k < |Chunks(s, w)| - 1
        ensures |Chunks(s, w)[k]| == w
      {
        if k > 0 { assert Chunks(s, w)[k] == rest[k - 1]; }
      }
    }
  }

  /** Joining splitBy's chunks gives back the text. */
  lemma SplitByConcat(s: string, n: nat)
    requires n >= 1
    ensures Concat(SplitBySpec(s, n)) == s
  {
    if |s| > n {
      var w := if n == 1 then 2 else n;
      ChunksConcat(s[n..], w);
      assert ([s[..n]] + Chunks(s[n..], w))[1..] == Chunks(s[n..], w);
      assert s[..n] + s[n..] == s;
    }
  }

  /** For n >= 2 every chunk but the last has length n, the last at most n. */
  lemma SplitByWidths(s: string, n: nat)
    requires n >= 2
    ensures SplitBySpec(s, n) == Chunks(s, n)
    ensures forall k :: 0 <= k < |SplitBySpec(s, n)| - 1 ==> |SplitBySpec(s, n)[k]| == n
    ensures |SplitBySpec(s, n)[|SplitBySpec(s, n)| - 1]| <= n
  {
    ChunksWidths(s, n);
  }

  /** For n = 1 the first chunk has length 1 and the later ones length 2
    * (the last at most 2). */
  lemma SplitByWidthOne(s: string)
    requires |s| > 1
    ensures |SplitBySpec(s, 1)[0]| == 1
    ensures forall k :: 1 <= k < |SplitBySpec(s, 1)| - 1 ==> |SplitBySpec(s, 1)[k]| == 2
    ensures |SplitBySpec(s, 1)[|SplitBySpec(s, 1)| - 1]| <= 2
  {
    ChunksWidths(s[1..], 2);
    var rest := Chunks(s[1..], 2);
    assert SplitBySpec(s, 1) == [s[..1]] + rest;
    forall k | 1 <= k < |SplitBySpec(s, 1)| - 1
      ensures |SplitBySpec(s, 1)[k]| == 2
    {
      assert SplitBySpec(s, 1)[k] == rest[k - 1];
    }
  }

  /** The chunk-test DKIM value: 28 characters in chunks of 10. */
  lemma DkimChunksExample()
    ensures SplitBySpec("v=DKIM1; k=rsa; p=12345abcde", 10) == ["v=DKIM1; k", "=rsa; p=12", "345abcde"]
  {
    var s := "v=DKIM1; k=rsa; p=12345abcde";
    assert s[..10] == "v=DKIM1; k";
    assert s[10..][..10] == "=rsa; p=12";
    assert s[10..][10..] == "345abcde";
  }

  /** Within one chunk the counter reaches a multiple of n exactly at the
    * chunk's width. */
  lemma CutsAtWidth(i: int, n: int, w: int)
    requires n >= 1 && 1 <= i <= w
    requires n == 1 ==> i == w
    requires n >= 2 ==> w == n
    ensures i % n == 0 <==> i == w
  {
    if n >= 2 && i < n {
      assert i % n == i;
    }
  }

  /** splitBy: cut `s` whenever the counter reaches a multiple of n. */
  method SplitBy(s0: string, n: int) returns (ss: seq<string>)
    requires n >= 1
    ensures ss == SplitBySpec(s0, n)
  {
    ss := [];
    var s := s0;
    ghost var w: nat := n;
    var i := 1;
    while i < |s|
      invariant w == if |ss| == 0 then n else if n == 1 then 2 else n
      invariant (if |ss| == 0 then 1 else 2) <= i <= w
      invariant |ss| == 0 ==> s == s0
      invariant |ss| > 0 ==> ss + Chunks(s, w) == SplitBySpec(s0, n)
      decreases |s| - i
    {
      CutsAtWidth(i, n, w);
      if i % n == 0 {
        if |ss| == 0 {
          assert SplitBySpec(s0, n) == [s[..i]] + Chunks(s[i..], if n == 1 then 2 else n);
        } else {
          assert Chunks(s, w) == [s[..i]] + Chunks(s[i..], w);
        }
        ss := ss + [s[..i]];
        s := s[i..];
        w := if n == 1 then 2 else n;
        i := 1;
      }
      i := i + 1;
    }
    ss := ss + [s];
  }

  // ------------------------------------------------------------ record changes

  /** The `change` helper: one record per value, in order. */
  function ChangeOf(action: string, name: string, recordType: string, ttl: int, values: seq<string>): (c: RecordChange)
    ensures c.action == action && c.name == name && c.recordType == recordType && c.ttl == ttl
    ensures |c.records| == |values| && forall i :: 0 <= i < |values| ==> c.records[i].value == values[i]
  {
    RecordChange(action, name, recordType, ttl, seq(|values|, i requires 0 <= i < |values| => ResourceRecord(values[i])))
  }

  method NewChange(action: string, name: string, recordType: string, ttl: int, values: seq<string>) returns (c: RecordChange)
    ensures c == ChangeOf(action, name, recordType, ttl, values)
  {
    var records: seq<ResourceRecord> := [];
    var k := 0;
    while k < |values|
      invariant 0 <= k <= |values|
      invariant records == seq(k, i requires 0 <= i < k => ResourceRecord(values[i]))
    {
      records := records + [ResourceRecord(values[k])];
      k := k + 1;
    }
    c := RecordChange(action, name, recordType, ttl, records);
  }

  /** The TXT value of the DKIM record: the quoted chunks joined by `" "`. */
  function DkimValue(dkim: string, txtLimit: nat): string
    requires txtLimit >= 1
  {
    "\"" + Join(SplitBySpec(DkimPrefix + dkim, txtLimit), "\" \"") + "\""
  }

  /** The changes actionDomain commits: AAAA and A pairs for the name and its
    * wildcard, the DKIM record, then MX, SPF and TXT, all with one action. */
  function DomainChanges(domain: string, ipv4: Option<string>, ipv6: Option<string>, dkim: Option<string>,
                         spf: string, mx: string, action: string, txtLimit: nat): seq<RecordChange>
    requires txtLimit >= 1
  {
    (if ipv6.Some? then [ChangeOf(action, domain, "AAAA", DefaultTtl, [ipv6.value]),
                         ChangeOf(action, "*." + domain, "AAAA", DefaultTtl, [ipv6.value])] else []) +
    (if ipv4.Some? then [ChangeOf(action, domain, "A", DefaultTtl, [ipv4.value]),
                         ChangeOf(action, "*." + domain, "A", DefaultTtl, [ipv4.value])] else []) +
    (if dkim.Some? then [ChangeOf(action, "mail._domainkey." + domain, "TXT", DefaultTtl,
                                  [DkimValue(dkim.value, txtLimit)])] else []) +
    [ChangeOf(action, domain, "MX", DefaultTtl, [mx]),
     ChangeOf(action, domain, "SPF", DefaultTtl, [spf]),
     ChangeOf(action, domain, "TXT", DefaultTtl, [spf])]
  }

  /** The end of a batch: its length, its action throughout, then MX, SPF
    * and TXT on the name itself. */
  lemma DomainChangesTail(domain: string, ipv4: Option<string>, ipv6: Option<string>, dkim: Option<string>,
                          spf: string, mx: string, action: string, txtLimit: nat)
    requires txtLimit >= 1
    ensures var r := DomainChanges(domain, ipv4, ipv6, dkim, spf, mx, action, txtLimit);
      |r| == 3 + (if ipv6.Some? then 2 else 0) + (if ipv4.Some? then 2 else 0) + (if dkim.Some? then 1 else 0) &&
      (forall i :: 0 <= i < |r| ==> r[i].action == action) &&
      r[|r| - 3].recordType == "MX" && r[|r| - 2].recordType == "SPF" && r[|r| - 1].recordType == "TXT" &&
      (forall i :: |r| - 3 <= i < |r| ==> r[i].name == domain && r[i].ttl == DefaultTtl) &&
      r[|r| - 3].records == [ResourceRecord(mx)] &&
      r[|r| - 2].records == [ResourceRecord(spf)] && r[|r| - 1].records == [ResourceRecord(spf)]
  {
  }

  /** The front of a batch: AAAA and A pairs for the name and its wildcard,
    * then the DKIM record. */
  lemma DomainChangesLayout(domain: string, ipv4: Option<string>, ipv6: Option<string>, dkim: Option<string>,
                            spf: string, mx: string, action: string, txtLimit: nat)
    requires txtLimit >= 1
    ensures var r := DomainChanges(domain, ipv4, ipv6, dkim, spf, mx, action, txtLimit);
      var a := if ipv6.Some? then 2 else 0;
      var d := a + (if ipv4.Some? then 2 else 0);
      |r| == 3 + d + (if dkim.Some? then 1 else 0) &&
      (ipv6.Some? ==>
        r[0] == ChangeOf(action, domain, "AAAA", DefaultTtl, [ipv6.value]) &&
        r[1] == ChangeOf(action, "*." + domain, "AAAA", DefaultTtl, [ipv6.value])) &&
      (ipv4.Some? ==>
        r[a] == ChangeOf(action, domain, "A", DefaultTtl, [ipv4.value]) &&
        r[a + 1] == ChangeOf(action, "*." + domain, "A", DefaultTtl, [ipv4.value])) &&
      (dkim.Some? ==>
        r[d] == ChangeOf(action, "mail._domainkey." + domain, "TXT", DefaultTtl, [DkimValue(dkim.value, txtLimit)]))
  {
    DomainChangesTail(domain, ipv4, ipv6, dkim, spf, mx, action, txtLimit);
  }

  /** The placeholder records DeleteDomainRecords writes and then removes. */
  function PlaceholderChanges(fqdn: string, action: string, txtLimit: nat): seq<RecordChange>
    requires txtLimit >= 1
  {
    DomainChanges(fqdn, Some(DefaultIpv4), Some(DefaultIpv6), Some(DefaultDkim), DefaultSpf, DefaultMx, action, txtLimit)
  }

  /** The records UpdateDomainRecords creates from the domain's addresses. */
  function DomainRecordChanges(d: DomainRow, parse: IpParser, txtLimit: nat): seq<RecordChange>
    requires txtLimit >= 1
  {
    DomainChanges(d.FQDN(), d.DnsIpv4(parse), d.DnsIpv6(parse), d.dkimKey, DomainSpf, "1 " + d.FQDN(), "CREATE", txtLimit)
  }

  /** The two batches DeleteDomainRecords commits: placeholders upserted, then deleted. */
  function RecordRemoval(fqdn: string, hostedZoneId: string, txtLimit: nat): seq<Commit>
    requires txtLimit >= 1
  {
    [Commit(PlaceholderChanges(fqdn, "UPSERT", txtLimit), hostedZoneId),
     Commit(PlaceholderChanges(fqdn, "DELETE", txtLimit), hostedZoneId)]
  }

  /** The batches UpdateDomainRecords commits: the removal, then the domain's records. */
  function RecordUpdate(d: DomainRow, parse: IpParser, txtLimit: nat): seq<Commit>
    requires txtLimit >= 1
  {
    RecordRemoval(d.FQDN(), d.hostedZoneId, txtLimit) + [Commit(DomainRecordChanges(d, parse, txtLimit), d.hostedZoneId)]
  }

  /** The two batches DeleteCertbotRecord commits. */
  function CertbotRemoval(hostedZoneId: string, name: string): seq<Commit> {
    [Commit([ChangeOf("UPSERT", name, "TXT", CertbotTtl, ["\"cleanup\""])], hostedZoneId),
     Commit([ChangeOf("DELETE", name, "TXT", CertbotTtl, ["\"cleanup\""])], hostedZoneId)]
  }

  /** The placeholders cover every record type a domain can have. */
  lemma PlaceholdersCoverEveryRecord(fqdn: string, action: string, txtLimit: nat)
    requires txtLimit >= 1
    ensures |PlaceholderChanges(fqdn, action, txtLimit)| == 8
    ensures PlaceholderChanges(fqdn, action, txtLimit)[0].recordType == "AAAA"
    ensures PlaceholderChanges(fqdn, action, txtLimit)[2].recordType == "A"
    ensures PlaceholderChanges(fqdn, action, txtLimit)[4].name == "mail._domainkey." + fqdn
  {
  }

  /** The hosted zone id with every "/hostedzone/" removed. */
  function StripZoneId(rawId: string): string {
    ReplaceAll(rawId, "/hostedzone/", "")
  }

  /** A provider id "/hostedzone/" + id gives back id. */
  lemma StripZoneIdPrefix(id: string)
    requires !Contains(id, "/hostedzone/")
    ensures StripZoneId("/hostedzone/" + id) == id
  {
    ReplaceAllLeading("/hostedzone/", id, "");
    ReplaceAllAbsent(id, "/hostedzone/", "");
  }

  /** CreateHostedZone's answer: the stripped id, a 400 service error for an
    * invalid domain name, or the provider's error as is. */
  function CreateZoneResult(reply: ZoneReply): (r: Result<string, Error>)
    ensures reply.ZoneCreated? ==> r == Ok(StripZoneId(reply.rawId))
    ensures reply.ZoneFailed? && reply.error.AwsError? && reply.error.code == "InvalidDomainName" ==>
              r == Err(NewServiceErrorWithCode("Invalid domain name", 400))
    ensures reply.ZoneFailed? && !(reply.error.AwsError? && reply.error.code == "InvalidDomainName") ==>
              r == Err(reply.error)
  {
    match reply
    case ZoneCreated(rawId) => Ok(StripZoneId(rawId))
    case ZoneFailed(error) =>
      if error.AwsError? && error.code == "InvalidDomainName" then Err(NewServiceErrorWithCode("Invalid domain name", 400))
      else Err(error)
  }

  class AmazonDns {
    const txtLimit: int
    const parse: IpParser
    /** GetHostedZone's delegation set, per zone id. */
    const nameServersOf: string -> seq<string>
    /** Change batches the provider accepted, in order. */
    var commits: seq<Commit>
    /** Names whose hosted zone the provider created. */
    var createdZones: seq<string>
    /** Hosted zones the provider deleted. */
    var deletedZones: seq<string>

    ghost predicate Valid()
    {
      txtLimit >= 1
    }

    constructor (txtLimit: int, parse: IpParser, nameServersOf: string -> seq<string>)
      requires txtLimit >= 1
      ensures Valid() && this.txtLimit == txtLimit && this.parse == parse && this.nameServersOf == nameServersOf
      ensures commits == [] && createdZones == [] && deletedZones == []
    {
      this.txtLimit, this.parse, this.nameServersOf := txtLimit, parse, nameServersOf;
      commits, createdZones, deletedZones := [], [], [];
    }

    method CreateHostedZone(domain: string) returns (r: Result<string, Error>, ghost reply: ZoneReply)
      modifies this
      ensures r == CreateZoneResult(reply)
      ensures r.Ok? ==> createdZones == old(createdZones) + [domain]
      ensures r.Err? ==> createdZones == old(createdZones)
      ensures commits == old(commits) && deletedZones == old(deletedZones)
    {
      var answer: ZoneReply := *;
      reply := answer;
      match answer
      case ZoneFailed(error) =>
        if error.AwsError? && error.code == "InvalidDomainName" {
          return Err(NewServiceErrorWithCode("Invalid domain name", 400)), reply;
        }
        return Err(error), reply;
      case ZoneCreated(rawId) =>
        var id := ReplaceAll(rawId, "/hostedzone/", "");
        createdZones := createdZones + [domain];
        return Ok(id), reply;
    }

    method GetHostedZoneNameServers(id: string) returns (r: Result<seq<string>, Error>)
      ensures r.Ok? ==> r.value == nameServersOf(id)
    {
      if * { return Err(Failure("route53 error")); }
      return Ok(nameServersOf(id));
    }

    /** On failure the provider's error (possibly NoSuchHostedZone) is returned. */
    method DeleteHostedZone(hostedZoneId: string) returns (err: Option<Error>)
      modifies this
      ensures err.None? ==> deletedZones == old(deletedZones) + [hostedZoneId]
      ensures err.Some? ==> deletedZones == old(deletedZones)
      ensures commits == old(commits) && createdZones == old(createdZones)
    {
      var failure: Option<Error> := *;
      if failure.Some? { return failure; }
      deletedZones := deletedZones + [hostedZoneId];
      return None;
    }

    method CommitChanges(changes: seq<RecordChange>, hostedZoneId: string) returns (err: Option<Error>)
      modifies this
      ensures err.None? ==> commits == old(commits) + [Commit(changes, hostedZoneId)]
      ensures err.Some? ==> commits == old(commits)
      ensures createdZones == old(createdZones) && deletedZones == old(deletedZones)
    {
      if * { return Some(Failure("route53 error")); }
      commits := commits + [Commit(changes, hostedZoneId)];
      return None;
    }

    method ChangeDkim(domain: string, dkim: string, action: string) returns (c: RecordChange)
      requires Valid()
      ensures c == ChangeOf(action, "mail._domainkey." + domain, "TXT", DefaultTtl, [DkimValue(dkim, txtLimit)])
    {
      var name := "mail._domainkey." + domain;
      var dkimValueLong := "v=DKIM1; k=rsa; p=" + dkim;
      var values := SplitBy(dkimValueLong, txtLimit);
      var value := "\"" + Join(values, "\" \"") + "\"";
      c := NewChange(action, name, "TXT", DefaultTtl, [value]);
    }

    method ActionDomain(domain: string, ipv4: Option<string>, ipv6: Option<string>, dkim: Option<string>,
                        spf: string, mx: string, action: string, hostedZoneId: string) returns (err: Option<Error>)
      requires Valid()
      modifies this
      ensures err.None? ==>
        commits == old(commits) + [Commit(DomainChanges(domain, ipv4, ipv6, dkim, spf, mx, action, txtLimit), hostedZoneId)]
      ensures err.Some? ==> commits == old(commits)
      ensures createdZones == old(createdZones) && deletedZones == old(deletedZones)
    {
      var aaaa: seq<RecordChange> := [];
      if ipv6.Some? {
        var c1 := NewChange(action, domain, "AAAA", DefaultTtl, [ipv6.value]);
        var c2 := NewChange(action, "*." + domain, "AAAA", DefaultTtl, [ipv6.value]);
        aaaa := [c1, c2];
      }
      var a: seq<RecordChange> := [];
      if ipv4.Some? {
        var c1 := NewChange(action, domain, "A", DefaultTtl, [ipv4.value]);
        var c2 := NewChange(action, "*." + domain, "A", DefaultTtl, [ipv4.value]);
        a := [c1, c2];
      }
      var dkimChange: seq<RecordChange> := [];
      if dkim.Some? {
        var c := ChangeDkim(domain, dkim.value, action);
        dkimChange := [c];
      }
      var mxChange := NewChange(action, domain, "MX", DefaultTtl, [mx]);
      var spfChange := NewChange(action, domain, "SPF", DefaultTtl, [spf]);
      var txtChange := NewChange(action, domain, "TXT", DefaultTtl, [spf]);
      var changes := aaaa + a + dkimChange + [mxChange, spfChange, txtChange];
      err := CommitChanges(changes, hostedZoneId);
    }

    /** Placeholders are upserted and then deleted, so every record goes. */
    method DeleteDomainRecords(d: DomainRow) returns (err: Option<Error>)
      requires Valid()
      modifies this
      ensures err.None? ==> commits == old(commits) + RecordRemoval(d.FQDN(), d.hostedZoneId, txtLimit)
      ensures err.Some? ==> commits == old(commits) || commits == old(commits) + RecordRemoval(d.FQDN(), d.hostedZoneId, txtLimit)[..1]
      ensures createdZones == old(createdZones) && deletedZones == old(deletedZones)
    {
      err := ActionDomain(d.FQDN(), Some(DefaultIpv4), Some(DefaultIpv6), Some(DefaultDkim), DefaultSpf, DefaultMx,
                          "UPSERT", d.hostedZoneId);
      if err.Some? { return; }
      err := ActionDomain(d.FQDN(), Some(DefaultIpv4), Some(DefaultIpv6), Some(DefaultDkim), DefaultSpf, DefaultMx,
                          "DELETE", d.hostedZoneId);
    }

    /** Old records are removed first, then the domain's records created. */
    method UpdateDomainRecords(d: DomainRow) returns (err: Option<Error>)
      requires Valid()
      modifies this
      ensures err.None? ==> commits == old(commits) + RecordUpdate(d, parse, txtLimit)
      ensures err.Some? ==>
        commits == old(commits) || commits == old(commits) + RecordUpdate(d, parse, txtLimit)[..1] ||
        commits == old(commits) + RecordUpdate(d, parse, txtLimit)[..2]
      ensures createdZones == old(createdZones) && deletedZones == old(deletedZones)
    {
      err := DeleteDomainRecords(d);
      if err.Some? { return; }
      err := ActionDomain(d.FQDN(), d.DnsIpv4(parse), d.DnsIpv6(parse), d.dkimKey, "\"v=spf1 a mx -all\"",
                          "1 " + d.FQDN(), "CREATE", d.hostedZoneId);
    }

    /** One UPSERT of a TXT record holding every value in double quotes. */
    method CreateCertbotRecord(hostedZoneId: string, name: string, values: seq<string>) returns (err: Option<Error>)
      modifies this
      ensures err.None? ==>
        commits == old(commits) + [Commit([ChangeOf("UPSERT", name, "TXT", CertbotTtl, Quoted(values))], hostedZoneId)]
      ensures err.Some? ==> commits == old(commits)
      ensures createdZones == old(createdZones) && deletedZones == old(deletedZones)
    {
      var records: seq<string> := [];
      var k := 0;
      while k < |values|
        invariant 0 <= k <= |values|
        invariant records == Quoted(values[..k])
      {
        assert values[..k + 1] == values[..k] + [values[k]];
        records := records + ["\"" + values[k] + "\""];
        k := k + 1;
      }
      assert values[..|values|] == values;
      var c := NewChange("UPSERT", name, "TXT", CertbotTtl, records);
      err := CommitChanges([c], hostedZoneId);
    }

    /** A "cleanup" TXT record is upserted and then deleted, removing the challenge. */
    method DeleteCertbotRecord(hostedZoneId: string, name: string) returns (err: Option<Error>)
      modifies this
      ensures err.None? ==> commits == old(commits) + CertbotRemoval(hostedZoneId, name)
      ensures createdZones == old(createdZones) && deletedZones == old(deletedZones)
    {
      var upsert := NewChange("UPSERT", name, "TXT", CertbotTtl, ["\"cleanup\""]);
      err := CommitChanges([upsert], hostedZoneId);
      if err.Some? { return; }
      var delete := NewChange("DELETE", name, "TXT", CertbotTtl, ["\"cleanup\""]);
      err := CommitChanges([delete], hostedZoneId);
    }
  }

  /** Every value wrapped in double quotes, in order. */
  function Quoted(values: seq<string>): (r: seq<string>)
    ensures |r| == |values| && forall i :: 0 <= i < |values| ==> r[i] == "\"" + values[i] + "\""
  {
    if |values| == 0 then [] else Quoted(values[..|values| - 1]) + ["\"" + values[|values| - 1] + "\""]
  }
}
