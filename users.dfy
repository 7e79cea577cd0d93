// The account service (backend/service/users.go): sign-in, activation,
// registration, plan changes and password reset.

module Users {
  import opened Basics
  import opened Errors
  import opened UserModel
  import opened Store
  import opened Validation
  import opened MailService
  import Actions

  const AuthenticationFailed := "authentication failed"
  const AlreadyRegistered := "Email is already registered"
  const AlreadyActive := "user is already active"
  const NoSubscription := "you have no existing subscrition, please contact support"
  const ExistingSubscription := "you have an existing subscrition, please contact support"
  const InvalidRequest := "invalid request"

  /** The PayPal subscription client: cancellations it accepted, in order. */
  class PayPalSubscriptions {
    var cancelled: seq<string>

    constructor ()
      ensures cancelled == []
    {
      cancelled := [];
    }

    method Unsubscribe(id: string) returns (err: Option<Error>)
      modifies this
      ensures err.None? ==> cancelled == old(cancelled) + [id]
      ensures err.Some? ==> cancelled == old(cancelled)
    {
      if * { return Some(Failure("paypal error")); }
      cancelled := cancelled + [id];
      return None;
    }
  }

  /** Authenticate's validation passes: a well-formed email and a password. */
  predicate CredentialsPass(email: Option<string>, password: Option<string>) {
    EmailRule(email).0 == [] && PasswordErrors(password) == []
  }

  /** CreateNewUser's validation passes: a well-formed email and a long enough password. */
  predicate RegistrationPasses(email: Option<string>, password: Option<string>) {
    EmailRule(email).0 == [] && NewPasswordErrors(password) == []
  }

  /** UserSetPassword's validation passes: a token and a long enough password. */
  predicate PasswordSetPasses(token: Option<string>, password: Option<string>) {
    RequiredErrors(token) == [] && NewPasswordErrors(password) == []
  }

  /** The validation step of Authenticate: the lower-cased email and the
    * password, or the parameter error listing every message. */
  method CheckCredentials(email: Option<string>, password: Option<string>) returns (r: Result<(string, string), Error>)
    ensures r.Ok? <==> CredentialsPass(email, password)
    ensures r.Ok? ==> email.Some? && password.Some? && r.value == (ToLower(email.value), password.value)
    ensures r.Err? ==> r.error.ParameterError?
  {
    var v := new FieldValidator();
    var emailLower := v.Email(email);
    var passwordChecked := v.Password(password);
    if v.HasErrors() {
      var messages := v.ToParametersMessages();
      return Err(ParameterError(messages));
    }
    return Ok((emailLower.value, passwordChecked.value));
  }

  /** The validation step of CreateNewUser. */
  method CheckRegistration(email: Option<string>, password: Option<string>) returns (r: Result<(string, string), Error>)
    ensures r.Ok? <==> RegistrationPasses(email, password)
    ensures r.Ok? ==> email.Some? && password.Some? && r.value == (ToLower(email.value), password.value)
    ensures r.Err? ==> r.error.ParameterError?
  {
    var v := new FieldValidator();
    var emailLower := v.Email(email);
    var passwordChecked := v.NewPassword(password);
    if v.HasErrors() {
      var messages := v.ToParametersMessages();
      return Err(ParameterError(messages));
    }
    return Ok((emailLower.value, passwordChecked.value));
  }

  /** The validation step of UserSetPassword: the token and the new password. */
  method CheckPasswordSet(token: Option<string>, password: Option<string>) returns (r: Result<(string, string), Error>)
    ensures r.Ok? <==> PasswordSetPasses(token, password)
    ensures r.Ok? ==> token.Some? && password.Some? && r.value == (token.value, password.value)
    ensures r.Err? ==> r.error.ParameterError?
  {
    var v := new FieldValidator();
    v.Token(token);
    var checked := v.NewPassword(password);
    if v.HasErrors() {
      var messages := v.ToParametersMessages();
      return Err(ParameterError(messages));
    }
    return Ok((token.value, checked.value));
  }

  class Users {
    const db: Db
    const activateByEmail: bool
    const actions: Actions.Actions
    const mail: Mail
    const subscriptions: PayPalSubscriptions
    /** The SHA-256 hex digest (foreign). */
    const hash: string -> string

    ghost predicate Valid()
      reads this, db
    {
      db.Valid() && actions.db == db
    }

    constructor (db: Db, activateByEmail: bool, actions: Actions.Actions, mail: Mail,
                 subscriptions: PayPalSubscriptions, hash: string -> string)
      requires db.Valid() && actions.db == db
      ensures Valid() && this.db == db && this.activateByEmail == activateByEmail && this.actions == actions
      ensures this.mail == mail && this.subscriptions == subscriptions && this.hash == hash
    {
      this.db, this.activateByEmail, this.actions := db, activateByEmail, actions;
      this.mail, this.subscriptions, this.hash := mail, subscriptions, hash;
    }

    /** A user is returned only when active and holding the password's hash;
      * every other rejection after validation is one "authentication failed". */
    method Authenticate(email: Option<string>, password: Option<string>) returns (r: Result<UserRow, Error>)
      requires Valid()
      ensures !CredentialsPass(email, password) <==> r.Err? && r.error.ParameterError?
      ensures CredentialsPass(email, password) && r.Err? ==> r.error == NewServiceError(AuthenticationFailed)
      ensures r.Ok? ==>
        (email.Some? && password.Some? && Stored(db.users, r.value.id, r.value) &&
         r.value.email == ToLower(email.value) && r.value.active && r.value.passwordHash == hash(password.value))
    {
      var checked := CheckCredentials(email, password);
      if checked.Err? { return Err(checked.error); }
      var (emailLower, passwordChecked) := checked.value;
      var user := db.GetUserByEmail(emailLower);
      if user.Err? || user.value.None? || !user.value.value.active || hash(passwordChecked) != user.value.value.passwordHash {
        return Err(NewServiceError(AuthenticationFailed));
      }
      return Ok(user.value.value);
    }

    /** An inactive user holding the activation token becomes active and the
      * token is used up; an active one is refused and nothing changes. */
    method Activate(token: string) returns (err: Option<Error>, ghost action: ActionRow)
      requires Valid()
      modifies db
      ensures Valid()
      ensures db.domains == old(db.domains)
      ensures err.None? ==>
        (Stored(old(db.actions), action.id, action) && action.token == token && action.actionTypeId == Actions.ActionActivate &&
         action.userId in old(db.users) && !old(db.users)[action.userId].active &&
         db.users == old(db.users)[action.userId := old(db.users)[action.userId].(active := true)] &&
         db.actions == old(db.actions) - {action.id})
      ensures err == Some(NewServiceError(AlreadyActive)) ==>
        (db.users == old(db.users) && Stored(old(db.actions), action.id, action) &&
         action.userId in old(db.users) && old(db.users)[action.userId].active)
      ensures err.Some? ==> db.actions == old(db.actions)
    {
      action := ActionRow(0, 0, 0, "", 0);
      var found := actions.GetActivateAction(token);
      if found.Err? {
        assert Actions.UnknownToken("invalid activation token") != NewServiceError(AlreadyActive);
        return Some(found.error), action;
      }
      var a := found.value;
      action := a;
      var user := db.GetUser(a.userId);
      if user.Err? { return Some(user.error), action; }
      if user.value.None? {
        assert NewServiceError("invalid activation token") != NewServiceError(AlreadyActive);
        return Some(NewServiceError("invalid activation token")), action;
      }
      if user.value.value.active { return Some(NewServiceError(AlreadyActive)), action; }
      var activated := user.value.value.(active := true);
      err := db.UpdateUser(activated);
      if err.Some? { return err, action; }
      err := actions.DeleteAction(a.id);
    }

    /** Users.Delete: the user's actions, then the user. */
    method Delete(userId: int) returns (err: Option<Error>)
      requires Valid()
      modifies db
      ensures Valid()
      ensures err.None? ==>
        (db.actions == (map id | id in old(db.actions) && old(db.actions)[id].userId != userId :: old(db.actions)[id]) &&
         db.users == old(db.users) - {userId})
      ensures db.domains == old(db.domains)
    {
      err := actions.DeleteActions(userId);
      if err.Some? { return; }
      err := db.DeleteUser(userId);
    }

    /** A new email is registered with its password's hash, active unless
      * activation goes by mail, in which case an activation token is mailed. */
    method CreateNewUser(email: Option<string>, password: Option<string>, now: int)
      returns (r: Result<UserRow, Error>, ghost userId: int)
      requires Valid()
      modifies db, mail
      ensures Valid()
      ensures db.domains == old(db.domains)
      ensures !RegistrationPasses(email, password) ==>
        (r.Err? && r.error.ParameterError? && unchanged(db) && mail.notices == old(mail.notices))
      ensures RegistrationPasses(email, password) && r == Err(SingleParameterError("email", AlreadyRegistered)) ==>
        (email.Some? && db.users == old(db.users) && exists id :: id in db.users && db.users[id].email == ToLower(email.value))
      ensures r.Ok? ==>
        (email.Some? && password.Some? && r.value.email == ToLower(email.value) &&
         r.value.passwordHash == hash(password.value) && r.value.active == !activateByEmail &&
         r.value.notificationEnabled && r.value.status == StatusCreated &&
         (forall id :: id in old(db.users) ==> old(db.users)[id].email != r.value.email) &&
         userId !in old(db.users) && db.users == old(db.users)[userId := r.value.(id := userId)])
      ensures r.Ok? && activateByEmail ==>
        exists id :: id in db.actions && db.actions[id].userId == userId && db.actions[id].actionTypeId == Actions.ActionActivate &&
          mail.notices == old(mail.notices) + [Notice.Activate(r.value.email, db.actions[id].token)]
      ensures r.Ok? && !activateByEmail ==> db.actions == old(db.actions) && mail.notices == old(mail.notices)
    {
      userId := 0;
      var checked := CheckRegistration(email, password);
      if checked.Err? { return Err(checked.error), userId; }
      var (emailLower, passwordChecked) := checked.value;
      var byEmail := db.GetUserByEmail(emailLower);
      if byEmail.Err? { return Err(byEmail.error), userId; }
      if byEmail.value.Some? {
        return Err(SingleParameterError("email", AlreadyRegistered)), userId;
      }
      var updateToken: string := *;
      var user := UserRow(0, emailLower, hash(passwordChecked), !activateByEmail, updateToken, true, now,
                          None, None, StatusCreated, 0, 0);
      var inserted := db.InsertUser(user);
      if inserted.Err? { return Err(inserted.error), userId; }
      var newId := inserted.value;
      userId := newId;
      if activateByEmail {
        var action, stored := actions.UpsertActivateAction(newId, now);
        if action.Err? { return Err(action.error), userId; }
        assert stored.id in db.actions;
        var sent := mail.Send(Notice.Activate(user.email, action.value.token));
        if sent.Some? { return Err(sent.value), userId; }
      }
      return Ok(user), userId;
    }

    /** A subscribed user is unsubscribed (PayPal is told only for PayPal
      * plans), saved and mailed; an unsubscribed one is refused. */
    method Unsubscribe(user: User, now: int) returns (err: Option<Error>)
      requires Valid()
      modifies user, db, mail, subscriptions
      ensures Valid()
      ensures db.domains == old(db.domains) && db.actions == old(db.actions)
      ensures !old(user.Row()).IsSubscribed() ==>
        (err == Some(Failure(NoSubscription)) && user.Row() == old(user.Row()) && db.users == old(db.users) &&
         mail.notices == old(mail.notices) && subscriptions.cancelled == old(subscriptions.cancelled))
      ensures subscriptions.cancelled == old(subscriptions.cancelled) ||
        (old(user.Row()).IsPayPal() && subscriptions.cancelled == old(subscriptions.cancelled) + [old(user.subscriptionId).value])
      ensures err.None? ==>
        (old(user.Row()).IsSubscribed() && user.Row() == old(user.Row()).UnSubscribe(now) &&
         db.users == (if user.id in old(db.users) then old(db.users)[user.id := user.Row()] else old(db.users)) &&
         mail.notices == old(mail.notices) + [PlanUnSubscribed(user.email)] &&
         subscriptions.cancelled == if old(user.Row()).IsPayPal()
                                    then old(subscriptions.cancelled) + [old(user.subscriptionId).value]
                                    else old(subscriptions.cancelled))
    {
      if !user.Row().IsSubscribed() {
        return Some(Failure(NoSubscription));
      }
      if user.Row().IsPayPal() {
        err := subscriptions.Unsubscribe(user.subscriptionId.value);
        if err.Some? { return; }
      }
      user.UnSubscribe(now);
      err := db.UpdateUser(user.Row());
      if err.Some? { return; }
      err := mail.Send(PlanUnSubscribed(user.email));
    }

    /** An unsubscribed user takes the plan, is saved and mailed; a subscribed
      * one is refused. */
    method Subscribe(user: User, subscriptionId: string, subscriptionType: int) returns (err: Option<Error>)
      requires Valid()
      modifies user, db, mail
      ensures Valid()
      ensures db.domains == old(db.domains) && db.actions == old(db.actions)
      ensures old(user.Row()).IsSubscribed() ==>
        (err == Some(Failure(ExistingSubscription)) && user.Row() == old(user.Row()) && db.users == old(db.users) &&
         mail.notices == old(mail.notices))
      ensures err.None? ==>
        (!old(user.Row()).IsSubscribed() && user.Row() == old(user.Row()).Subscribe(subscriptionId, subscriptionType) &&
         db.users == (if user.id in old(db.users) then old(db.users)[user.id := user.Row()] else old(db.users)) &&
         mail.notices == old(mail.notices) + [PlanSubscribed(user.email)])
    {
      if user.Row().IsSubscribed() {
        return Some(Failure(ExistingSubscription));
      }
      user.Subscribe(subscriptionId, subscriptionType);
      err := db.UpdateUser(user.Row());
      if err.Some? { return; }
      err := mail.Send(PlanSubscribed(user.email));
    }

    /** An active user gets a reset token by mail and back; a missing or
      * inactive one gets nothing and no mail; every failure is "invalid request". */
    method RequestPasswordReset(email: string, now: int) returns (r: Result<Option<string>, Error>, ghost found: Option<UserRow>)
      requires Valid()
      modifies db, mail
      ensures Valid()
      ensures db.users == old(db.users) && db.domains == old(db.domains)
      ensures r.Err? ==> r.error == Failure(InvalidRequest)
      ensures found.Some? ==> Stored(db.users, found.value.id, found.value) && found.value.email == email
      ensures r.Ok? && found.None? ==> forall id :: id in db.users ==> db.users[id].email != email
      ensures found.None? || !found.value.active ==>
        (db.actions == old(db.actions) && mail.notices == old(mail.notices) && (r.Ok? ==> r.value.None?))
      ensures r.Ok? && r.value.Some? ==>
        (found.Some? && found.value.active &&
         (exists id :: id in db.actions && db.actions[id].userId == found.value.id &&
           db.actions[id].actionTypeId == Actions.ActionPassword && db.actions[id].token == r.value.value) &&
         mail.notices == old(mail.notices) + [ResetPassword(found.value.email, r.value.value)])
    {
      found := None;
      var user := db.GetUserByEmail(email);
      if user.Err? { return Err(Failure(InvalidRequest)), found; }
      found := user.value;
      if user.value.Some? && user.value.value.active {
        var action, stored := actions.UpsertPasswordAction(user.value.value.id, now);
        if action.Err? { return Err(Failure(InvalidRequest)), found; }
        assert stored.id in db.actions;
        var sent := mail.Send(ResetPassword(user.value.value.email, action.value.token));
        if sent.Some? { return Err(Failure(InvalidRequest)), found; }
        return Ok(Some(action.value.token)), found;
      }
      return Ok(None), found;
    }

    /** With a valid token and a long enough password the owner's hash is
      * replaced, the owner is mailed and the token is used up. */
    method UserSetPassword(token: Option<string>, password: Option<string>) returns (err: Option<Error>, ghost action: ActionRow)
      requires Valid()
      modifies db, mail
      ensures Valid()
      ensures db.domains == old(db.domains)
      ensures !PasswordSetPasses(token, password) ==>
        (err.Some? && err.value.ParameterError? && unchanged(db) && mail.notices == old(mail.notices))
      ensures err.None? ==>
        (token.Some? && password.Some? &&
         Stored(old(db.actions), action.id, action) && action.token == token.value &&
         action.actionTypeId == Actions.ActionPassword && action.userId in old(db.users) &&
         db.users == old(db.users)[action.userId := old(db.users)[action.userId].(passwordHash := hash(password.value))] &&
         mail.notices == old(mail.notices) + [SetPassword(old(db.users)[action.userId].email)] &&
         db.actions == old(db.actions) - {action.id})
    {
      action := ActionRow(0, 0, 0, "", 0);
      var checked := CheckPasswordSet(token, password);
      if checked.Err? { return Some(checked.error), action; }
      var (tokenValue, newPassword) := checked.value;
      var found := actions.GetPasswordAction(tokenValue);
      if found.Err? { return Some(found.error), action; }
      var a := found.value;
      action := a;
      var user := db.GetUser(a.userId);
      if user.Err? { return Some(user.error), action; }
      if user.value.None? { return Some(NewServiceError("invalid password token")), action; }
      var updated := user.value.value.(passwordHash := hash(newPassword));
      err := db.UpdateUser(updated);
      if err.Some? { return err, action; }
      err := mail.Send(SetPassword(updated.email));
      if err.Some? { return err, action; }
      err := actions.DeleteAction(a.id);
    }
  }
}
