// The database the services share, as tables keyed by id. Every operation may
// fail instead (the model does not look at why); on failure it changes
// nothing. The SQL behind it is not part of this model.

module Store {
  import opened Basics
  import opened Errors
  import opened UserModel
  import opened DomainModel

  /** A one-time token of a user (backend/model/action.go). */
  datatype ActionRow = ActionRow(id: int, actionTypeId: int, userId: int, token: string, timestamp: int)

  /** The error a failed database call reports. */
  const DbFailure: Error := Failure("database error")

  /** A row found by a lookup is the stored row under its own id. */
  predicate Stored<K, R(==)>(table: map<K, R>, key: K, row: R) {
    key in table && table[key] == row
  }

  /** No two actions share a (user, type) pair. */
  ghost predicate UniquePairs(actions: map<int, ActionRow>) {
    forall a, b :: a in actions && b in actions &&
      actions[a].userId == actions[b].userId && actions[a].actionTypeId == actions[b].actionTypeId
      ==> a == b
  }

  class Db {
    var users: map<int, UserRow>
    var domains: map<int, DomainRow>
    var actions: map<int, ActionRow>

    /** Every row is stored under its own id, and user ids are positive (0 is
      * the "no user" answer of GetNextUserId). */
    ghost predicate Valid()
      reads this
    {
      (forall id :: id in users ==> users[id].id == id && id > 0) &&
      (forall id :: id in domains ==> domains[id].id == id) &&
      (forall id :: id in actions ==> actions[id].id == id)
    }

    /** At most one action per (user, type) pair. */
    ghost predicate ActionPairsUnique()
      reads this
    {
      UniquePairs(actions)
    }

    constructor ()
      ensures Valid() && users == map[] && domains == map[] && actions == map[]
    {
      users, domains, actions := map[], map[], map[];
    }

    // --------------------------------------------------------------- users

    method GetUser(id: int) returns (r: Result<Option<UserRow>, Error>)
      ensures r.Err? ==> r.error == DbFailure
      ensures r.Ok? ==> r.value == (if id in users then Some(users[id]) else None)
    {
      if * { return Err(DbFailure); }
      if id in users { return Ok(Some(users[id])); }
      return Ok(None);
    }

    method GetUserByEmail(email: string) returns (r: Result<Option<UserRow>, Error>)
      ensures r.Err? ==> r.error == DbFailure
      ensures r.Ok? && r.value.Some? ==> Stored(users, r.value.value.id, r.value.value) && r.value.value.email == email
      ensures r.Ok? && r.value.None? ==> forall id :: id in users ==> users[id].email != email
      requires Valid()
    {
      if * { return Err(DbFailure); }
      if exists id :: id in users && users[id].email == email {
        var id :| id in users && users[id].email == email;
        return Ok(Some(users[id]));
      }
      return Ok(None);
    }

    /** Stores `u` under a fresh positive id and returns that id. */
    method InsertUser(u: UserRow) returns (r: Result<int, Error>)
      ensures r.Err? ==> r.error == DbFailure
      requires Valid()
      modifies this
      ensures Valid()
      ensures r.Ok? ==> r.value !in old(users) && users == old(users)[r.value := u.(id := r.value)]
      ensures r.Err? ==> users == old(users)
      ensures domains == old(domains) && actions == old(actions)
    {
      if * { return Err(DbFailure); }
      var id := FreshKey(users.Keys);
      users := users[id := u.(id := id)];
      return Ok(id);
    }

    /** Overwrites the stored user with the same id (no row: no effect). */
    method UpdateUser(u: UserRow) returns (err: Option<Error>)
      ensures err.Some? ==> err.value == DbFailure
      requires Valid()
      modifies this
      ensures Valid()
      ensures err.None? ==> users == if u.id in old(users) then old(users)[u.id := u] else old(users)
      ensures err.Some? ==> users == old(users)
      ensures domains == old(domains) && actions == old(actions)
    {
      if * { return Some(DbFailure); }
      if u.id in users { users := users[u.id := u]; }
      return None;
    }

    method DeleteUser(id: int) returns (err: Option<Error>)
      ensures err.Some? ==> err.value == DbFailure
      requires Valid()
      modifies this
      ensures Valid()
      ensures err.None? ==> users == old(users) - {id}
      ensures err.Some? ==> users == old(users)
      ensures domains == old(domains) && actions == old(actions)
    {
      if * { return Some(DbFailure); }
      users := users - {id};
      return None;
    }

    /** The smallest user id above `after`, or 0 when there is none. */
    method GetNextUserId(after: int) returns (r: Result<int, Error>)
      ensures r.Err? ==> r.error == DbFailure
      requires Valid()
      ensures r.Ok? && r.value == 0 ==> forall id :: id in users ==> id <= after
      ensures r.Ok? && r.value != 0 ==>
        r.value in users && r.value > after && forall id :: id in users && id > after ==> r.value <= id
    {
      if * { return Err(DbFailure); }
      var rest, next := users.Keys, 0;
      while exists x :: x in rest
        invariant rest <= users.Keys
        invariant next == 0 ==> forall x :: x in users && x !in rest ==> x <= after
        invariant next != 0 ==>
          next in users && next > after && forall x :: x in users && x !in rest && x > after ==> next <= x
        decreases |rest|
      {
        var x :| x in rest;
        if x > after && (next == 0 || x < next) { next := x; }
        rest := rest - {x};
      }
      return Ok(next);
    }

    // ------------------------------------------------------------- actions

    method GetAction(userId: int, actionTypeId: int) returns (r: Result<Option<ActionRow>, Error>)
      ensures r.Err? ==> r.error == DbFailure
      ensures r.Ok? && r.value.Some? ==>
        Stored(actions, r.value.value.id, r.value.value) && r.value.value.userId == userId &&
        r.value.value.actionTypeId == actionTypeId
      ensures r.Ok? && r.value.None? ==> forall id :: id in actions ==>
        !(actions[id].userId == userId && actions[id].actionTypeId == actionTypeId)
      requires Valid()
    {
      if * { return Err(DbFailure); }
      if exists id :: id in actions && actions[id].userId == userId && actions[id].actionTypeId == actionTypeId {
        var id :| id in actions && actions[id].userId == userId && actions[id].actionTypeId == actionTypeId;
        return Ok(Some(actions[id]));
      }
      return Ok(None);
    }

    method GetActionByToken(token: string, actionTypeId: int) returns (r: Result<Option<ActionRow>, Error>)
      ensures r.Err? ==> r.error == DbFailure
      ensures r.Ok? && r.value.Some? ==>
        Stored(actions, r.value.value.id, r.value.value) && r.value.value.token == token &&
        r.value.value.actionTypeId == actionTypeId
      ensures r.Ok? && r.value.None? ==> forall id :: id in actions ==>
        !(actions[id].token == token && actions[id].actionTypeId == actionTypeId)
      requires Valid()
    {
      if * { return Err(DbFailure); }
      if exists id :: id in actions && actions[id].token == token && actions[id].actionTypeId == actionTypeId {
        var id :| id in actions && actions[id].token == token && actions[id].actionTypeId == actionTypeId;
        return Ok(Some(actions[id]));
      }
      return Ok(None);
    }

    method InsertAction(a: ActionRow) returns (r: Result<int, Error>)
      ensures r.Err? ==> r.error == DbFailure
      requires Valid()
      modifies this
      ensures Valid()
      ensures r.Ok? ==> r.value !in old(actions) && actions == old(actions)[r.value := a.(id := r.value)]
      ensures r.Err? ==> actions == old(actions)
      ensures users == old(users) && domains == old(domains)
    {
      if * { return Err(DbFailure); }
      var id := FreshKey(actions.Keys);
      actions := actions[id := a.(id := id)];
      return Ok(id);
    }

    method UpdateAction(a: ActionRow) returns (err: Option<Error>)
      ensures err.Some? ==> err.value == DbFailure
      requires Valid()
      modifies this
      ensures Valid()
      ensures err.None? ==> actions == if a.id in old(actions) then old(actions)[a.id := a] else old(actions)
      ensures err.Some? ==> actions == old(actions)
      ensures users == old(users) && domains == old(domains)
    {
      if * { return Some(DbFailure); }
      if a.id in actions { actions := actions[a.id := a]; }
      return None;
    }

    method DeleteActions(userId: int) returns (err: Option<Error>)
      ensures err.Some? ==> err.value == DbFailure
      requires Valid()
      modifies this
      ensures Valid()
      ensures err.None? ==> actions == map id | id in old(actions) && old(actions)[id].userId != userId :: old(actions)[id]
      ensures err.Some? ==> actions == old(actions)
      ensures users == old(users) && domains == old(domains)
    {
      if * { return Some(DbFailure); }
      actions := map id | id in actions && actions[id].userId != userId :: actions[id];
      return None;
    }

    method DeleteAction(actionId: int) returns (err: Option<Error>)
      ensures err.Some? ==> err.value == DbFailure
      requires Valid()
      modifies this
      ensures Valid()
      ensures err.None? ==> actions == old(actions) - {actionId}
      ensures err.Some? ==> actions == old(actions)
      ensures users == old(users) && domains == old(domains)
    {
      if * { return Some(DbFailure); }
      actions := actions - {actionId};
      return None;
    }

    // ------------------------------------------------------------- domains

    method GetDomainByToken(token: string) returns (r: Result<Option<DomainRow>, Error>)
      ensures r.Err? ==> r.error == DbFailure
      ensures r.Ok? && r.value.Some? ==>
        Stored(domains, r.value.value.id, r.value.value) && r.value.value.updateToken == Some(token)
      ensures r.Ok? && r.value.None? ==> forall id :: id in domains ==> domains[id].updateToken != Some(token)
      requires Valid()
    {
      if * { return Err(DbFailure); }
      if exists id :: id in domains && domains[id].updateToken == Some(token) {
        var id :| id in domains && domains[id].updateToken == Some(token);
        return Ok(Some(domains[id]));
      }
      return Ok(None);
    }

    method GetDomainByName(name: string) returns (r: Result<Option<DomainRow>, Error>)
      ensures r.Err? ==> r.error == DbFailure
      ensures r.Ok? && r.value.Some? ==>
        Stored(domains, r.value.value.id, r.value.value) && r.value.value.name == name
      ensures r.Ok? && r.value.None? ==> forall id :: id in domains ==> domains[id].name != name
      requires Valid()
    {
      if * { return Err(DbFailure); }
      if exists id :: id in domains && domains[id].name == name {
        var id :| id in domains && domains[id].name == name;
        return Ok(Some(domains[id]));
      }
      return Ok(None);
    }

    /** The user's domains, each once, in an order the model leaves open. */
    method GetUserDomains(userId: int) returns (r: Result<seq<DomainRow>, Error>)
      ensures r.Err? ==> r.error == DbFailure
      requires Valid()
      ensures r.Ok? ==> forall i :: 0 <= i < |r.value| ==>
        Stored(domains, r.value[i].id, r.value[i]) && r.value[i].userId == userId
      ensures r.Ok? ==> forall id :: id in domains && domains[id].userId == userId ==>
        exists i :: 0 <= i < |r.value| && r.value[i].id == id
      ensures r.Ok? ==> forall i, j :: 0 <= i < j < |r.value| ==> r.value[i].id != r.value[j].id
    {
      if * { return Err(DbFailure); }
      var pending := set id | id in domains && domains[id].userId == userId;
      var found: seq<DomainRow> := [];
      while exists id :: id in pending
        invariant pending <= domains.Keys
        invariant forall id :: id in pending ==> domains[id].userId == userId
        invariant forall i :: 0 <= i < |found| ==>
          Stored(domains, found[i].id, found[i]) && found[i].userId == userId && found[i].id !in pending
        invariant forall id :: id in domains && domains[id].userId == userId && id !in pending ==>
          exists i :: 0 <= i < |found| && found[i].id == id
        invariant forall i, j :: 0 <= i < j < |found| ==> found[i].id != found[j].id
        decreases |pending|
      {
        var id :| id in pending;
        ghost var before := found;
        found := found + [domains[id]];
        pending := pending - {id};
        assert found[|before|].id == id;
        forall other | other in domains && domains[other].userId == userId && other !in pending
          ensures exists i :: 0 <= i < |found| && found[i].id == other
        {
          if other != id {
            var i :| 0 <= i < |before| && before[i].id == other;
            assert found[i] == before[i];
          }
        }
      }
      return Ok(found);
    }

    /** Stores `d` under a fresh id and returns that id. */
    method InsertDomain(d: DomainRow) returns (r: Result<int, Error>)
      ensures r.Err? ==> r.error == DbFailure
      requires Valid()
      modifies this
      ensures Valid()
      ensures r.Ok? ==> r.value !in old(domains) && domains == old(domains)[r.value := d.(id := r.value)]
      ensures r.Err? ==> domains == old(domains)
      ensures users == old(users) && actions == old(actions)
    {
      if * { return Err(DbFailure); }
      var id := FreshKey(domains.Keys);
      domains := domains[id := d.(id := id)];
      return Ok(id);
    }

    method UpdateDomain(d: DomainRow) returns (err: Option<Error>)
      ensures err.Some? ==> err.value == DbFailure
      requires Valid()
      modifies this
      ensures Valid()
      ensures err.None? ==> domains == if d.id in old(domains) then old(domains)[d.id := d] else old(domains)
      ensures err.Some? ==> domains == old(domains)
      ensures users == old(users) && actions == old(actions)
    {
      if * { return Some(DbFailure); }
      if d.id in domains { domains := domains[d.id := d]; }
      return None;
    }

    method DeleteDomain(domainId: int) returns (err: Option<Error>)
      ensures err.Some? ==> err.value == DbFailure
      requires Valid()
      modifies this
      ensures Valid()
      ensures err.None? ==> domains == old(domains) - {domainId}
      ensures err.Some? ==> domains == old(domains)
      ensures users == old(users) && actions == old(actions)
    {
      if * { return Some(DbFailure); }
      domains := domains - {domainId};
      return None;
    }

    method DeleteAllDomains(userId: int) returns (err: Option<Error>)
      ensures err.Some? ==> err.value == DbFailure
      requires Valid()
      modifies this
      ensures Valid()
      ensures err.None? ==> domains == map id | id in old(domains) && old(domains)[id].userId != userId :: old(domains)[id]
      ensures err.Some? ==> domains == old(domains)
      ensures users == old(users) && actions == old(actions)
    {
      if * { return Some(DbFailure); }
      domains := map id | id in domains && domains[id].userId != userId :: domains[id];
      return None;
    }

    /** A token of some domain last updated before `before` (or never), or ""
      * when there is none; which candidate is left open. */
    method GetDomainTokenUpdatedBefore(before: int) returns (r: Result<string, Error>)
      ensures r.Err? ==> r.error == DbFailure
      requires Valid()
      ensures r.Ok? ==>
        (exists id :: id in domains && StaleCandidate(domains[id], before) && domains[id].updateToken == Some(r.value)) ||
        (r.value == "" && forall id :: id in domains ==> !StaleCandidate(domains[id], before))
    {
      if * { return Err(DbFailure); }
      if exists id :: id in domains && StaleCandidate(domains[id], before) {
        var id :| id in domains && StaleCandidate(domains[id], before);
        return Ok(domains[id].updateToken.value);
      }
      return Ok("");
    }
  }

  /** A domain with a token whose last update is missing or before `before`. */
  predicate StaleCandidate(d: DomainRow, before: int) {
    d.updateToken.Some? && (d.lastUpdate.None? || d.lastUpdate.value < before)
  }

  /** A positive key not yet used (an auto-increment id). */
  method FreshKey(used: set<int>) returns (k: int)
    ensures k !in used && k > 0
  {
    k := 1;
    var rest := used;
    while exists x :: x in rest
      invariant rest <= used
      invariant k > 0
      invariant forall x :: x in used && x !in rest ==> x < k
      decreases |rest|
    {
      var x :| x in rest;
      if x >= k { k := x + 1; }
      rest := rest - {x};
    }
  }
}
