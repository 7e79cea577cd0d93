// The stale-domain cleaner (backend/dns/cleaner.go): each Clean call takes
// one domain not updated for a month; an unsubscribed owner loses it and is
// told so, a subscribed owner's domain is kept and marked as updated.

module DnsCleaner {
  import opened Basics
  import opened Errors
  import opened UserModel
  import opened DomainModel
  import opened Store
  import opened MailService

  /** A domain last updated before the cutoff, or never, is stale. */
  predicate Stale(d: DomainRow, cutoff: int) {
    d.lastUpdate.None? || d.lastUpdate.value < cutoff
  }

  /** The remover of single domains: (owner, name) pairs it removed, in order. */
  class DomainRemover {
    var removed: seq<(int, string)>

    constructor ()
      ensures removed == []
    {
      removed := [];
    }

    method DeleteDomain(userId: int, domainName: string) returns (err: Option<Error>)
      modifies this
      ensures err.None? ==> removed == old(removed) + [(userId, domainName)]
      ensures err.Some? ==> removed == old(removed)
    {
      if * { return Some(Failure("unable to delete domain")); }
      removed := removed + [(userId, domainName)];
      return None;
    }
  }

  class Cleaner {
    const db: Db
    const remover: DomainRemover
    const mail: Mail

    ghost predicate Valid()
      reads this, db
    {
      db.Valid()
    }

    /** Every domain's owner is stored: the cleaner reads the owner without a
      * nil check. */
    ghost predicate OwnersStored()
      reads this, db
    {
      forall id :: id in db.domains ==> db.domains[id].userId in db.users
    }

    constructor (db: Db, remover: DomainRemover, mail: Mail)
      requires db.Valid()
      ensures Valid() && this.db == db && this.remover == remover && this.mail == mail
    {
      this.db, this.remover, this.mail := db, remover, mail;
    }

    /** Clean at `now`, with `monthOld` the instant one month earlier. The
      * domain examined, if any, is a stored one; a fresh domain is left
      * alone; a stale one goes when its owner is unsubscribed (a failed mail
      * is not reported) and gets LastUpdate = now otherwise. */
    method Clean(now: int, monthOld: int) returns (err: Option<Error>, ghost examined: Option<DomainRow>)
      requires Valid() && OwnersStored()
      modifies db, remover, mail
      ensures Valid()
      ensures db.users == old(db.users) && db.actions == old(db.actions)
      ensures err.Some? ==>
        db.domains == old(db.domains) && remover.removed == old(remover.removed) && mail.notices == old(mail.notices)
      ensures examined.None? || !Stale(examined.value, monthOld) ==>
        db.domains == old(db.domains) && remover.removed == old(remover.removed) && mail.notices == old(mail.notices)
      ensures examined.Some? ==>
        Stored(old(db.domains), examined.value.id, examined.value) && examined.value.updateToken.Some?
      ensures examined.Some? && !Stale(examined.value, monthOld) ==> err.None?
      ensures err.None? && examined.Some? && Stale(examined.value, monthOld) ==>
        (var d := examined.value;
         var owner := old(db.users)[d.userId];
         (!owner.IsSubscribed() ==>
            db.domains == old(db.domains) && remover.removed == old(remover.removed) + [(owner.id, d.name)] &&
            (mail.notices == old(mail.notices) || mail.notices == old(mail.notices) + [DnsClean(owner.email, d.name)])) &&
         (owner.IsSubscribed() ==>
            db.domains == old(db.domains)[d.id := d.(lastUpdate := Some(now))] &&
            remover.removed == old(remover.removed) && mail.notices == old(mail.notices)))
    {
      examined := None;
      var token := db.GetDomainTokenUpdatedBefore(monthOld);
      if token.Err? { return Some(token.error), examined; }
      if token.value == "" { return None, examined; }
      var found := db.GetDomainByToken(token.value);
      if found.Err? { return Some(found.error), examined; }
      if found.value.None? { return None, examined; }
      var d := found.value.value;
      examined := Some(d);
      var lastUpdate := d.lastUpdate;
      if lastUpdate.Some? {
        if !(lastUpdate.value < monthOld) { return None, examined; }
      }
      var user := db.GetUser(d.userId);
      if user.Err? { return Some(user.error), examined; }
      if user.value.None? {
        assert false;
      }
      var owner := user.value.value;
      if !owner.IsSubscribed() {
        err := remover.DeleteDomain(owner.id, d.name);
        if err.Some? { return err, examined; }
        var mailed := mail.Send(DnsClean(owner.email, d.name));
        return None, examined;
      } else {
        var dom := new Domain.FromRow(d);
        dom.lastUpdate := Some(now);
        err := db.UpdateDomain(dom.Row());
        if err.Some? { return err, examined; }
      }
      return None, examined;
    }
  }

  /** Staleness is strict: a domain updated exactly at the cutoff is fresh,
    * and a domain never updated is always stale. */
  lemma StaleAtCutoff(d: DomainRow, cutoff: int)
    ensures !Stale(d.(lastUpdate := Some(cutoff)), cutoff)
    ensures Stale(d.(lastUpdate := Some(cutoff - 1)), cutoff)
    ensures Stale(d.(lastUpdate := None), cutoff)
  {
  }

  /** A domain kept for a subscriber is fresh afterwards, so the next Clean at
    * the same instant passes it by. */
  lemma KeptDomainIsFresh(d: DomainRow, now: int, monthOld: int)
    requires monthOld <= now
    ensures !Stale(d.(lastUpdate := Some(now)), monthOld)
  {
  }
}
