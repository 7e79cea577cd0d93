// The request change detector: decides whether a domain update alters any of
// the values that end up in DNS records.

module Change {
  import opened Basics

  /** Equality of two optional strings: both absent, or both present and equal. */
  function Equals(left: Option<string>, right: Option<string>): (r: bool)
    ensures left.None? && right.None? ==> r
    ensures left.None? != right.None? ==> !r
    ensures left.Some? && right.Some? ==> (r <==> left.value == right.value)
  {
    if left.None? && right.None? then true
    else if left.None? || right.None? then false
    else left.value == right.value
  }

  /** The DNS-relevant part of a domain (or of an update request). */
  datatype DnsValues = DnsValues(
    mapLocalAddress: bool,
    ip: Option<string>,
    ipv6: Option<string>,
    dkimKey: Option<string>,
    localIp: Option<string>)

  /** RequestDetector.Changed: the flag differs or any optional pair is not Equals. */
  function Changed(
    existingMapLocalAddress: bool, existingIp: Option<string>, existingIpv6: Option<string>,
    existingDkimKey: Option<string>, existingLocalIp: Option<string>,
    newMapLocalAddress: bool, newIp: Option<string>, newIpv6: Option<string>,
    newDkimKey: Option<string>, newLocalIp: Option<string>): (r: bool)
    ensures r <==> existingMapLocalAddress != newMapLocalAddress
                   || !Equals(existingIp, newIp)
                   || !Equals(existingLocalIp, newLocalIp)
                   || !Equals(existingIpv6, newIpv6)
                   || !Equals(existingDkimKey, newDkimKey)
    ensures r <==> (DnsValues(existingMapLocalAddress, existingIp, existingIpv6, existingDkimKey, existingLocalIp)
                    != DnsValues(newMapLocalAddress, newIp, newIpv6, newDkimKey, newLocalIp))
  {
    EqualsIsEquality(existingIp, newIp);
    EqualsIsEquality(existingLocalIp, newLocalIp);
    EqualsIsEquality(existingIpv6, newIpv6);
    EqualsIsEquality(existingDkimKey, newDkimKey);
    (existingMapLocalAddress != newMapLocalAddress) ||
    !Equals(existingIp, newIp) ||
    !Equals(existingLocalIp, newLocalIp) ||
    !Equals(existingIpv6, newIpv6) ||
    !Equals(existingDkimKey, newDkimKey)
  }

  /** Equals coincides with equality of the optional values. */
  lemma EqualsIsEquality(left: Option<string>, right: Option<string>)
    ensures Equals(left, right) <==> left == right
  {
  }

  lemma EqualsReflexive(x: Option<string>)
    ensures Equals(x, x)
  {
  }

  lemma EqualsSymmetric(x: Option<string>, y: Option<string>)
    ensures Equals(x, y) == Equals(y, x)
  {
  }

  /** Nothing changed when every existing value equals its new counterpart. */
  lemma UnchangedWhenSame(v: DnsValues)
    ensures !Changed(v.mapLocalAddress, v.ip, v.ipv6, v.dkimKey, v.localIp,
                     v.mapLocalAddress, v.ip, v.ipv6, v.dkimKey, v.localIp)
  {
  }

  /** Changed does not depend on which side is the existing one. */
  lemma ChangedSymmetric(a: DnsValues, b: DnsValues)
    ensures Changed(a.mapLocalAddress, a.ip, a.ipv6, a.dkimKey, a.localIp,
                    b.mapLocalAddress, b.ip, b.ipv6, b.dkimKey, b.localIp)
         == Changed(b.mapLocalAddress, b.ip, b.ipv6, b.dkimKey, b.localIp,
                    a.mapLocalAddress, a.ip, a.ipv6, a.dkimKey, a.localIp)
  {
  }
}
