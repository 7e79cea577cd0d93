// One-time tokens of users (backend/service/actions.go): activation and
// password-reset actions, at most one per user and type.

module Actions {
  import opened Basics
  import opened Errors
  import opened Store

  const ActionActivate := 1
  const ActionPassword := 2

  /** The error an unknown token gets AS WRITTEN: a ServiceError literal
    * whose StatusCode is left at Go's zero value. */
  function UnknownTokenAsWritten(message: string): (e: Error)
    ensures e.ServiceError? && Message(e) == message && e.statusCode == 0
  {
    ServiceError(message, 0)
  }

  /** The error an unknown token is evidently meant to get: a 400 service
    * error, as every other rejection of the services builds it. */
  function UnknownToken(message: string): (e: Error)
    ensures e == NewServiceError(message) && e.statusCode == 400
  {
    NewServiceError(message)
  }

  /** Replacing an action by one with the same id and pair keeps pairs unique. */
  lemma UniquePairsReplace(actions: map<int, ActionRow>, a: ActionRow)
    requires UniquePairs(actions)
    requires a.id in actions && actions[a.id].userId == a.userId && actions[a.id].actionTypeId == a.actionTypeId
    ensures UniquePairs(actions[a.id := a])
  {
  }

  /** Adding an action for a pair no action has yet keeps pairs unique. */
  lemma UniquePairsAdd(actions: map<int, ActionRow>, a: ActionRow)
    requires UniquePairs(actions)
    requires a.id !in actions
    requires forall id :: id in actions ==> !(actions[id].userId == a.userId && actions[id].actionTypeId == a.actionTypeId)
    ensures UniquePairs(actions[a.id := a])
  {
  }

  class Actions {
    const db: Db

    constructor (db: Db)
      ensures this.db == db
    {
      this.db := db;
    }

    /** The action of the user and type with a fresh token stamped `now`:
      * an existing one is updated in place, otherwise one is inserted. The
      * insert does not copy the new id back, so an inserted action is
      * returned with id 0; `stored` is the row as the database holds it. */
    method UpsertAction(userId: int, actionTypeId: int, now: int) returns (r: Result<ActionRow, Error>, ghost stored: ActionRow)
      requires db.Valid()
      modifies db
      ensures db.Valid()
      ensures db.users == old(db.users) && db.domains == old(db.domains)
      ensures r.Ok? ==> r.value.userId == userId && r.value.actionTypeId == actionTypeId && r.value.timestamp == now
      ensures r.Ok? ==> stored == r.value.(id := stored.id) && db.actions == old(db.actions)[stored.id := stored]
      ensures r.Ok? && stored.id in old(db.actions) ==>
        r.value == stored &&
        old(db.actions)[stored.id].userId == userId && old(db.actions)[stored.id].actionTypeId == actionTypeId
      ensures r.Ok? && stored.id !in old(db.actions) ==>
        r.value.id == 0 &&
        forall id :: id in old(db.actions) ==> !(old(db.actions)[id].userId == userId && old(db.actions)[id].actionTypeId == actionTypeId)
      ensures r.Err? ==> db.actions == old(db.actions) && r.error == DbFailure
      ensures old(db.ActionPairsUnique()) ==> db.ActionPairsUnique()
    {
      var token: string := *;
      stored := ActionRow(0, actionTypeId, userId, token, now);
      var found := db.GetAction(userId, actionTypeId);
      if found.Err? { return Err(found.error), stored; }
      if found.value.Some? {
        var action := found.value.value.(token := token, timestamp := now);
        ghost var before := db.actions;
        var err := db.UpdateAction(action);
        if err.Some? { return Err(err.value), stored; }
        if UniquePairs(before) { UniquePairsReplace(before, action); }
        return Ok(action), action;
      } else {
        var action := ActionRow(0, actionTypeId, userId, token, now);
        ghost var before := db.actions;
        var id := db.InsertAction(action);
        if id.Err? { return Err(id.error), stored; }
        stored := action.(id := id.value);
        if UniquePairs(before) { UniquePairsAdd(before, stored); }
        return Ok(action), stored;
      }
    }

    method UpsertActivateAction(userId: int, now: int) returns (r: Result<ActionRow, Error>, ghost stored: ActionRow)
      requires db.Valid()
      modifies db
      ensures db.Valid()
      ensures db.users == old(db.users) && db.domains == old(db.domains)
      ensures r.Ok? ==> r.value.userId == userId && r.value.actionTypeId == ActionActivate && r.value.timestamp == now
      ensures r.Ok? ==> stored == r.value.(id := stored.id) && db.actions == old(db.actions)[stored.id := stored]
      ensures r.Ok? ==> r.value == stored || (r.value.id == 0 && stored.id !in old(db.actions))
      ensures r.Err? ==> db.actions == old(db.actions) && r.error == DbFailure
      ensures old(db.ActionPairsUnique()) ==> db.ActionPairsUnique()
    {
      r, stored := UpsertAction(userId, ActionActivate, now);
    }

    method UpsertPasswordAction(userId: int, now: int) returns (r: Result<ActionRow, Error>, ghost stored: ActionRow)
      requires db.Valid()
      modifies db
      ensures db.Valid()
      ensures db.users == old(db.users) && db.domains == old(db.domains)
      ensures r.Ok? ==> r.value.userId == userId && r.value.actionTypeId == ActionPassword && r.value.timestamp == now
      ensures r.Ok? ==> stored == r.value.(id := stored.id) && db.actions == old(db.actions)[stored.id := stored]
      ensures r.Ok? ==> r.value == stored || (r.value.id == 0 && stored.id !in old(db.actions))
      ensures r.Err? ==> db.actions == old(db.actions) && r.error == DbFailure
      ensures old(db.ActionPairsUnique()) ==> db.ActionPairsUnique()
    {
      r, stored := UpsertAction(userId, ActionPassword, now);
    }

    /** The stored action of the given type holding the token; an unknown
      * token is a service error with `message`. */
    method GetActionOfType(token: string, actionTypeId: int, message: string) returns (r: Result<ActionRow, Error>)
      requires db.Valid()
      ensures r.Ok? ==> Stored(db.actions, r.value.id, r.value) && r.value.token == token && r.value.actionTypeId == actionTypeId
      ensures r.Err? ==> r.error == DbFailure || r.error == UnknownToken(message)
      ensures r.Err? && r.error == UnknownToken(message) ==>
        forall id :: id in db.actions ==> !(db.actions[id].token == token && db.actions[id].actionTypeId == actionTypeId)
    {
      var found := db.GetActionByToken(token, actionTypeId);
      if found.Err? { return Err(found.error); }
      if found.value.None? { return Err(UnknownToken(message)); }
      return Ok(found.value.value);
    }

    method GetActivateAction(token: string) returns (r: Result<ActionRow, Error>)
      requires db.Valid()
      ensures r.Ok? ==> Stored(db.actions, r.value.id, r.value) && r.value.token == token && r.value.actionTypeId == ActionActivate
      ensures r.Err? ==> r.error == DbFailure || r.error == UnknownToken("invalid activation token")
      ensures r.Err? && r.error == UnknownToken("invalid activation token") ==>
        forall id :: id in db.actions ==> !(db.actions[id].token == token && db.actions[id].actionTypeId == ActionActivate)
    {
      r := GetActionOfType(token, ActionActivate, "invalid activation token");
    }

    method GetPasswordAction(token: string) returns (r: Result<ActionRow, Error>)
      requires db.Valid()
      ensures r.Ok? ==> Stored(db.actions, r.value.id, r.value) && r.value.token == token && r.value.actionTypeId == ActionPassword
      ensures r.Err? ==> r.error == DbFailure || r.error == UnknownToken("invalid password token")
      ensures r.Err? && r.error == UnknownToken("invalid password token") ==>
        forall id :: id in db.actions ==> !(db.actions[id].token == token && db.actions[id].actionTypeId == ActionPassword)
    {
      r := GetActionOfType(token, ActionPassword, "invalid password token");
    }

    method DeleteActions(userId: int) returns (err: Option<Error>)
      requires db.Valid()
      modifies db
      ensures db.Valid()
      ensures err.None? ==> db.actions == map id | id in old(db.actions) && old(db.actions)[id].userId != userId :: old(db.actions)[id]
      ensures err.Some? ==> db.actions == old(db.actions) && err.value == DbFailure
      ensures db.users == old(db.users) && db.domains == old(db.domains)
    {
      err := db.DeleteActions(userId);
    }

    method DeleteAction(actionId: int) returns (err: Option<Error>)
      requires db.Valid()
      modifies db
      ensures db.Valid()
      ensures err.None? ==> db.actions == old(db.actions) - {actionId}
      ensures err.Some? ==> db.actions == old(db.actions) && err.value == DbFailure
      ensures db.users == old(db.users) && db.domains == old(db.domains)
    {
      err := db.DeleteAction(actionId);
    }
  }
}
