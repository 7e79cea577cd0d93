// The user cleaner (backend/user/cleaner.go): each Clean call looks at the
// next user after a persisted cursor and performs at most one step of the
// account life cycle, sending the matching mail.

module UserCleaner {
  import opened Basics
  import opened Errors
  import opened UserModel
  import opened Store
  import opened MailService

  /** The persisted cursor: the id of the last user looked at, 0 before the
    * first run. Reading or writing the file may fail. */
  class CleanerState {
    var cursor: int

    constructor ()
      ensures cursor == 0
    {
      cursor := 0;
    }

    method Get() returns (r: Result<int, Error>)
      ensures r.Ok? ==> r.value == cursor
      ensures r.Err? ==> r.error.Failure?
    {
      if * { return Err(Failure("unable to read the cleaner state")); }
      return Ok(cursor);
    }

    method Set(userId: int) returns (err: Option<Error>)
      modifies this
      ensures err.None? ==> cursor == userId
      ensures err.Some? ==> cursor == old(cursor) && err.value.Failure?
    {
      if * { return Some(Failure("unable to write the cleaner state")); }
      cursor := userId;
      return None;
    }
  }

  /** The remover of a user's domains: the users whose domains went, in order. */
  class Remover {
    var removed: seq<int>

    constructor ()
      ensures removed == []
    {
      removed := [];
    }

    method DeleteAllDomains(userId: int) returns (err: Option<Error>)
      modifies this
      ensures err.None? ==> removed == old(removed) + [userId]
      ensures err.Some? ==> removed == old(removed)
    {
      if * { return Some(Failure("unable to delete domains")); }
      removed := removed + [userId];
      return None;
    }
  }

  /** The PayPal subscription lookup; `active` is the provider's answer. */
  class PayPalChecker {
    const active: string -> bool

    constructor (active: string -> bool)
      ensures this.active == active
    {
      this.active := active;
    }

    method IsActive(subscriptionId: string) returns (r: Result<bool, Error>)
      ensures r.Ok? ==> r.value == active(subscriptionId)
    {
      if * { return Err(Failure("paypal error")); }
      return Ok(active(subscriptionId));
    }
  }

  /** What one Clean call does to the user it looks at. */
  datatype Step =
    | Keep
    | Unsubscribe
    | SendTrial
    | SendLockSoon
    | LockAccount
    | RemoveAccount

  /** The step due for `u` at `now`: a subscription is kept unless it is an
    * inactive PayPal one; otherwise the first due life-cycle step, if any. */
  function Due(u: UserRow, now: int, active: string -> bool): Step {
    if u.IsSubscribed() then
      (if !u.IsPayPal() || active(u.subscriptionId.value) then Keep else Unsubscribe)
    else if u.IsStatusCreated() then SendTrial
    else if u.IsReadyForLockEmail(now) then SendLockSoon
    else if u.IsReadyForAccountLock(now) then LockAccount
    else if u.IsReadyForAccountRemove(now) then RemoveAccount
    else Keep
  }

  /** The new state of the user table, the action table, the mails and the
    * domain removals after `step` was performed on `u`. */
  ghost predicate Performed(step: Step, u: UserRow, now: int,
                            users0: map<int, UserRow>, users1: map<int, UserRow>,
                            actions0: map<int, ActionRow>, actions1: map<int, ActionRow>,
                            notices0: seq<Notice>, notices1: seq<Notice>,
                            removed0: seq<int>, removed1: seq<int>)
  {
    match step
    case Keep =>
      users1 == users0 && actions1 == actions0 && notices1 == notices0 && removed1 == removed0
    case Unsubscribe =>
      users1 == users0[u.id := u.UnSubscribe(now)] && actions1 == actions0 &&
      notices1 == notices0 + [PlanUnSubscribed(u.email)] && removed1 == removed0 + [u.id]
    case SendTrial =>
      users1 == users0[u.id := u.TrialEmailSent(now)] && actions1 == actions0 &&
      notices1 == notices0 + [Trial(u.email)] && removed1 == removed0
    case SendLockSoon =>
      users1 == users0[u.id := u.LockEmailSent(now)] && actions1 == actions0 &&
      notices1 == notices0 + [AccountLockSoon(u.email)] && removed1 == removed0
    case LockAccount =>
      users1 == users0[u.id := u.Lock(now)] && actions1 == actions0 &&
      notices1 == notices0 + [AccountLocked(u.email)] && removed1 == removed0 + [u.id]
    case RemoveAccount =>
      users1 == users0 - {u.id} &&
      actions1 == (map a | a in actions0 && actions0[a].userId != u.id :: actions0[a]) &&
      notices1 == notices0 + [AccountRemoved(u.email)] && removed1 == removed0 + [u.id]
  }

  class Cleaner {
    const db: Db
    const state: CleanerState
    const mail: Mail
    const remover: Remover
    const checker: PayPalChecker

    ghost predicate Valid()
      reads this, db
    {
      db.Valid()
    }

    constructor (db: Db, state: CleanerState, mail: Mail, remover: Remover, checker: PayPalChecker)
      requires db.Valid()
      ensures Valid() && this.db == db && this.state == state && this.mail == mail
      ensures this.remover == remover && this.checker == checker
    {
      this.db, this.state, this.mail, this.remover, this.checker := db, state, mail, remover, checker;
    }

    /** Clean: the next user after the cursor gets the step due at `now`;
      * without a next user the cursor goes back to 0. The cursor then moves
      * to the user, except after an unsubscription; any failure returns
      * before the cursor is written. */
    method Clean(now: int) returns (err: Option<Error>, ghost next: int, ghost u: UserRow)
      requires Valid()
      modifies db, state, mail, remover
      ensures Valid()
      ensures db.domains == old(db.domains)
      ensures err.Some? ==> state.cursor == old(state.cursor)
      ensures err.None? && next == 0 ==>
        (forall id :: id in old(db.users) ==> id <= old(state.cursor)) &&
        state.cursor == 0 && db.users == old(db.users) && db.actions == old(db.actions) &&
        mail.notices == old(mail.notices) && remover.removed == old(remover.removed)
      ensures err.None? && next != 0 ==>
        Stored(old(db.users), next, u) && next > old(state.cursor) &&
        (forall id :: id in old(db.users) && id > old(state.cursor) ==> next <= id) &&
        Performed(Due(u, now, checker.active), u, now, old(db.users), db.users, old(db.actions), db.actions,
                  old(mail.notices), mail.notices, old(remover.removed), remover.removed) &&
        state.cursor == if Due(u, now, checker.active) == Unsubscribe then old(state.cursor) else next
    {
      next, u := 0, UserRow(0, "", "", false, "", false, 0, None, None, 0, 0, 0);
      var cursor := state.Get();
      if cursor.Err? { return Some(cursor.error), next, u; }
      var id := db.GetNextUserId(cursor.value);
      if id.Err? { return Some(id.error), next, u; }
      next := id.value;
      if id.value == 0 {
        err := state.Set(0);
        return err, next, u;
      }
      var found := db.GetUser(id.value);
      if found.Err? { return Some(found.error), next, u; }
      if found.value.None? {
        assert false;
      }
      var row := found.value.value;
      u := row;
      var user := new User.FromRow(row);
      if user.subscriptionId.Some? {
        err := CleanSubscribed(user, now);
        return err, next, u;
      }
      err := CleanUnsubscribed(user, now);
      if err.Some? { return err, next, u; }
      err := state.Set(id.value);
    }

    /** The subscribed branch: non-PayPal and active PayPal subscriptions are
      * kept and the cursor moves on; an inactive one is cancelled, the
      * domains removed and the user mailed, leaving the cursor. */
    method CleanSubscribed(user: User, now: int) returns (err: Option<Error>)
      requires Valid() && user.subscriptionId.Some? && Stored(db.users, user.id, user.Row())
      modifies user, db, state, mail, remover
      ensures Valid()
      ensures db.domains == old(db.domains)
      ensures err.Some? ==> state.cursor == old(state.cursor)
      ensures err.None? ==>
        (var u := old(user.Row());
         Performed(Due(u, now, checker.active), u, now, old(db.users), db.users, old(db.actions), db.actions,
                   old(mail.notices), mail.notices, old(remover.removed), remover.removed) &&
         state.cursor == if Due(u, now, checker.active) == Unsubscribe then old(state.cursor) else u.id)
    {
      if !user.Row().IsPayPal() {
        err := state.Set(user.id);
        return;
      }
      var active := checker.IsActive(user.subscriptionId.value);
      if active.Err? { return Some(active.error); }
      if active.value {
        err := state.Set(user.id);
        return;
      }
      user.UnSubscribe(now);
      err := db.UpdateUser(user.Row());
      if err.Some? { return; }
      err := remover.DeleteAllDomains(user.id);
      if err.Some? { return; }
      err := mail.Send(PlanUnSubscribed(user.email));
    }

    /** The life-cycle branch: each due check in turn, on the user as the
      * previous check left it; the cursor is not written here. */
    method CleanUnsubscribed(user: User, now: int) returns (err: Option<Error>)
      requires Valid() && user.subscriptionId.None? && Stored(db.users, user.id, user.Row())
      modifies user, db, mail, remover
      ensures Valid()
      ensures db.domains == old(db.domains)
      ensures err.None? ==>
        (var u := old(user.Row());
         Performed(Due(u, now, checker.active), u, now, old(db.users), db.users, old(db.actions), db.actions,
                   old(mail.notices), mail.notices, old(remover.removed), remover.removed))
    {
      ghost var u := user.Row();
      ReadyChecksExclusive(u, now);
      NothingDueRightAfterTransition(u, now);
      if user.Row().IsStatusCreated() {
        err := TrialStep(user, now);
        if err.Some? { return; }
      }
      if user.Row().IsReadyForLockEmail(now) {
        err := LockSoonStep(user, now);
        if err.Some? { return; }
      }
      if user.Row().IsReadyForAccountLock(now) {
        err := LockStep(user, now);
        if err.Some? { return; }
      }
      if user.Row().IsReadyForAccountRemove(now) {
        err := RemoveStep(user, now);
        if err.Some? { return; }
      }
      err := None;
    }

    method TrialStep(user: User, now: int) returns (err: Option<Error>)
      requires Valid() && Stored(db.users, user.id, user.Row())
      modifies user, db, mail
      ensures Valid() && user.Row() == old(user.Row()).TrialEmailSent(now)
      ensures db.domains == old(db.domains) && db.actions == old(db.actions)
      ensures err.None? ==>
        db.users == old(db.users)[user.id := user.Row()] && mail.notices == old(mail.notices) + [Trial(user.email)]
      ensures err.None? ==> Stored(db.users, user.id, user.Row())
    {
      user.TrialEmailSent(now);
      err := db.UpdateUser(user.Row());
      if err.Some? { return; }
      err := mail.Send(Trial(user.email));
    }

    method LockSoonStep(user: User, now: int) returns (err: Option<Error>)
      requires Valid() && Stored(db.users, user.id, user.Row())
      modifies user, db, mail
      ensures Valid() && user.Row() == old(user.Row()).LockEmailSent(now)
      ensures db.domains == old(db.domains) && db.actions == old(db.actions)
      ensures err.None? ==>
        db.users == old(db.users)[user.id := user.Row()] && mail.notices == old(mail.notices) + [AccountLockSoon(user.email)]
      ensures err.None? ==> Stored(db.users, user.id, user.Row())
    {
      user.LockEmailSent(now);
      err := db.UpdateUser(user.Row());
      if err.Some? { return; }
      err := mail.Send(AccountLockSoon(user.email));
    }

    /** The lock removes the domains before the user is saved. */
    method LockStep(user: User, now: int) returns (err: Option<Error>)
      requires Valid() && Stored(db.users, user.id, user.Row())
      modifies user, db, mail, remover
      ensures Valid() && user.Row() == old(user.Row()).Lock(now)
      ensures db.domains == old(db.domains) && db.actions == old(db.actions)
      ensures err.None? ==>
        db.users == old(db.users)[user.id := user.Row()] && mail.notices == old(mail.notices) + [AccountLocked(user.email)] &&
        remover.removed == old(remover.removed) + [user.id]
      ensures err.None? ==> Stored(db.users, user.id, user.Row())
    {
      user.Lock(now);
      err := remover.DeleteAllDomains(user.id);
      if err.Some? { return; }
      err := db.UpdateUser(user.Row());
      if err.Some? { return; }
      err := mail.Send(AccountLocked(user.email));
    }

    /** The removal: domains, then actions, then the user, then the mail. */
    method RemoveStep(user: User, now: int) returns (err: Option<Error>)
      requires Valid()
      modifies db, mail, remover
      ensures Valid()
      ensures db.domains == old(db.domains)
      ensures err.None? ==>
        db.users == old(db.users) - {user.id} &&
        db.actions == (map a | a in old(db.actions) && old(db.actions)[a].userId != user.id :: old(db.actions)[a]) &&
        mail.notices == old(mail.notices) + [AccountRemoved(user.email)] &&
        remover.removed == old(remover.removed) + [user.id]
    {
      err := remover.DeleteAllDomains(user.id);
      if err.Some? { return; }
      err := db.DeleteActions(user.id);
      if err.Some? { return; }
      err := db.DeleteUser(user.id);
      if err.Some? { return; }
      err := mail.Send(AccountRemoved(user.email));
    }
  }

  // ------------------------------------------------------------------ lemmas

  /** A second Clean at the same instant finds nothing more to do: every step
    * leaves the user in a state whose next step is not yet due. */
  lemma NothingDueTwiceAtOneInstant(u: UserRow, now: int, active: string -> bool)
    ensures Due(u, now, active) == SendTrial ==> Due(u.TrialEmailSent(now), now, active) == Keep
    ensures Due(u, now, active) == SendLockSoon ==> Due(u.LockEmailSent(now), now, active) == Keep
    ensures Due(u, now, active) == LockAccount ==> Due(u.Lock(now), now, active) == Keep
    ensures Due(u, now, active) == Unsubscribe ==> Due(u.UnSubscribe(now), now, active) == Keep
  {
  }

  /** A trial mail sent 19 days ago is not followed up; one sent 21 days ago
    * brings the lock-soon mail. */
  lemma LockSoonAfterTwentyDays(u: UserRow, sentAt: int, active: string -> bool)
    requires !u.IsSubscribed()
    ensures Due(u.TrialEmailSent(sentAt), sentAt + 19 * SecondsPerDay, active) == Keep
    ensures Due(u.TrialEmailSent(sentAt), sentAt + 21 * SecondsPerDay, active) == SendLockSoon
  {
  }

  /** Within ten days of the lock-soon mail or of the lock nothing happens;
    * after eleven the account is locked, or removed. */
  lemma LockAndRemoveAfterTenDays(u: UserRow, at: int, active: string -> bool)
    requires !u.IsSubscribed()
    ensures Due(u.LockEmailSent(at), at + 10 * SecondsPerDay, active) == Keep
    ensures Due(u.LockEmailSent(at), at + 11 * SecondsPerDay, active) == LockAccount
    ensures Due(u.Lock(at), at + 10 * SecondsPerDay, active) == Keep
    ensures Due(u.Lock(at), at + 11 * SecondsPerDay, active) == RemoveAccount
  {
  }

  /** Subscribed users other than inactive PayPal ones are never touched, and
    * only the removal deletes the user. */
  lemma SubscribersKept(u: UserRow, now: int, active: string -> bool)
    requires u.IsSubscribed() && (!u.IsPayPal() || active(u.subscriptionId.value))
    ensures Due(u, now, active) == Keep
  {
  }
}
