// The user record and its life cycle: Created -> TrialEmailSent ->
// LockEmailSent -> Locked, plus Subscribe and UnSubscribe, with the
// day-threshold predicates the user cleaner consults.

module UserModel {
  import opened Basics

  const StatusCreated: int := 0
  const StatusTrialEmailSent: int := 1
  const StatusLockEmailSent: int := 2
  const StatusLocked: int := 3
  const StatusSubscribed: int := 4

  const SubscriptionTypePayPal: int := 1
  const SubscriptionTypeCrypto: int := 2

  /** Days a status must have lasted before the cleaner acts on it. */
  const LockEmailDays: int := 20
  const AccountLockDays: int := 10
  const AccountRemoveDays: int := 10

  /** A user as stored: instants are whole seconds. */
  datatype UserRow = UserRow(
    id: int,
    email: string,
    passwordHash: string,
    active: bool,
    updateToken: string,
    notificationEnabled: bool,
    timestamp: int,
    subscriptionId: Option<string>,
    subscriptionType: Option<int>,
    status: int,
    statusAt: int,
    registeredAt: int)
  {
    predicate IsSubscribed() { subscriptionId.Some? }

    /** StatusAt lies strictly before the instant `days` days before `now`. */
    predicate IsNDaysSinceStatus(now: int, days: int) { statusAt < now - days * SecondsPerDay }

    predicate IsReadyForLockEmail(now: int) {
      status == StatusTrialEmailSent && IsNDaysSinceStatus(now, LockEmailDays)
    }

    predicate IsReadyForAccountLock(now: int) {
      status == StatusLockEmailSent && IsNDaysSinceStatus(now, AccountLockDays)
    }

    predicate IsReadyForAccountRemove(now: int) {
      status == StatusLocked && IsNDaysSinceStatus(now, AccountRemoveDays)
    }

    predicate IsStatusCreated() { status == StatusCreated }

    predicate IsPayPal() { subscriptionType == Some(SubscriptionTypePayPal) }

    /** Some timed transition is due at `now`. */
    predicate IsReadyForAny(now: int) {
      IsReadyForLockEmail(now) || IsReadyForAccountLock(now) || IsReadyForAccountRemove(now)
    }

    // The transitions, as values; the User class applies them in place.

    function TrialEmailSent(now: int): UserRow {
      this.(statusAt := now, status := StatusTrialEmailSent)
    }

    function LockEmailSent(now: int): UserRow {
      this.(statusAt := now, status := StatusLockEmailSent)
    }

    function Lock(now: int): UserRow {
      this.(statusAt := now, status := StatusLocked)
    }

    function Subscribe(subscriptionId: string, subscriptionType: int): UserRow {
      this.(subscriptionId := Some(subscriptionId), subscriptionType := Some(subscriptionType),
            status := StatusSubscribed)
    }

    function UnSubscribe(now: int): UserRow {
      this.(subscriptionId := None, subscriptionType := None, statusAt := now, status := StatusLocked)
    }
  }

  /** A user object whose transitions assign its fields. */
  class User {
    var id: int
    var email: string
    var passwordHash: string
    var active: bool
    var updateToken: string
    var notificationEnabled: bool
    var timestamp: int
    var subscriptionId: Option<string>
    var subscriptionType: Option<int>
    var status: int
    var statusAt: int
    var registeredAt: int

    function Row(): UserRow
      reads this
    {
      UserRow(id, email, passwordHash, active, updateToken, notificationEnabled, timestamp,
              subscriptionId, subscriptionType, status, statusAt, registeredAt)
    }

    constructor FromRow(r: UserRow)
      ensures Row() == r
    {
      id, email, passwordHash, active, updateToken := r.id, r.email, r.passwordHash, r.active, r.updateToken;
      notificationEnabled, timestamp := r.notificationEnabled, r.timestamp;
      subscriptionId, subscriptionType := r.subscriptionId, r.subscriptionType;
      status, statusAt, registeredAt := r.status, r.statusAt, r.registeredAt;
    }

    method TrialEmailSent(now: int)
      modifies this
      ensures Row() == old(Row()).TrialEmailSent(now)
    {
      statusAt := now;
      status := StatusTrialEmailSent;
    }

    method LockEmailSent(now: int)
      modifies this
      ensures Row() == old(Row()).LockEmailSent(now)
    {
      statusAt := now;
      status := StatusLockEmailSent;
    }

    method Lock(now: int)
      modifies this
      ensures Row() == old(Row()).Lock(now)
    {
      statusAt := now;
      status := StatusLocked;
    }

    method Subscribe(newSubscriptionId: string, newSubscriptionType: int)
      modifies this
      ensures Row() == old(Row()).Subscribe(newSubscriptionId, newSubscriptionType)
    {
      subscriptionId := Some(newSubscriptionId);
      subscriptionType := Some(newSubscriptionType);
      status := StatusSubscribed;
    }

    method UnSubscribe(now: int)
      modifies this
      ensures Row() == old(Row()).UnSubscribe(now)
    {
      subscriptionId := None;
      subscriptionType := None;
      statusAt := now;
      status := StatusLocked;
    }
  }

  // ------------------------------------------------------------------ lemmas

  /** The three ready-for checks look at three different statuses, so at most
    * one holds; none holds for a Created or Subscribed user. */
  lemma ReadyChecksExclusive(u: UserRow, now: int)
    ensures !(u.IsReadyForLockEmail(now) && u.IsReadyForAccountLock(now))
    ensures !(u.IsReadyForLockEmail(now) && u.IsReadyForAccountRemove(now))
    ensures !(u.IsReadyForAccountLock(now) && u.IsReadyForAccountRemove(now))
    ensures u.IsStatusCreated() || u.status == StatusSubscribed ==> !u.IsReadyForAny(now)
  {
  }

  /** A status just entered at `now` has lasted zero days, so no timed
    * transition is due at that same instant. */
  lemma NothingDueRightAfterTransition(u: UserRow, now: int)
    ensures !u.TrialEmailSent(now).IsReadyForAny(now)
    ensures !u.LockEmailSent(now).IsReadyForAny(now)
    ensures !u.Lock(now).IsReadyForAny(now)
    ensures !u.UnSubscribe(now).IsReadyForAny(now)
  {
  }

  /** Readiness only grows with time. */
  lemma ReadinessPersists(u: UserRow, now: int, later: int, days: int)
    requires now <= later
    requires u.IsNDaysSinceStatus(now, days)
    ensures u.IsNDaysSinceStatus(later, days)
  {
  }

  /** The thresholds are strict: a status exactly `days` days old is not yet
    * due, one second more is. */
  lemma ThresholdIsStrict(u: UserRow, days: int)
    ensures !u.IsNDaysSinceStatus(u.statusAt + days * SecondsPerDay, days)
    ensures u.IsNDaysSinceStatus(u.statusAt + days * SecondsPerDay + 1, days)
  {
  }

  /** A trial mail sent 19 days ago is not followed up, one sent 21 days ago is. */
  lemma LockEmailThresholdExample(u: UserRow, sentAt: int)
    ensures !u.TrialEmailSent(sentAt).IsReadyForLockEmail(sentAt + 19 * SecondsPerDay)
    ensures u.TrialEmailSent(sentAt).IsReadyForLockEmail(sentAt + 21 * SecondsPerDay)
  {
  }

  /** The timed transitions touch only Status and StatusAt. */
  lemma TimedTransitionsTouchOnlyStatus(u: UserRow, now: int)
    ensures u.TrialEmailSent(now).(status := u.status, statusAt := u.statusAt) == u
    ensures u.LockEmailSent(now).(status := u.status, statusAt := u.statusAt) == u
    ensures u.Lock(now).(status := u.status, statusAt := u.statusAt) == u
    ensures u.TrialEmailSent(now).status == StatusTrialEmailSent && u.TrialEmailSent(now).statusAt == now
    ensures u.LockEmailSent(now).status == StatusLockEmailSent && u.LockEmailSent(now).statusAt == now
    ensures u.Lock(now).status == StatusLocked && u.Lock(now).statusAt == now
  {
  }

  /** Subscribe makes the user subscribed, keeps StatusAt, and is PayPal exactly
    * for the PayPal type; UnSubscribe undoes the subscription and locks. */
  lemma SubscriptionTransitions(u: UserRow, sid: string, stype: int, now: int)
    ensures u.Subscribe(sid, stype).IsSubscribed()
    ensures u.Subscribe(sid, stype).statusAt == u.statusAt
    ensures u.Subscribe(sid, stype).status == StatusSubscribed
    ensures u.Subscribe(sid, stype).IsPayPal() <==> stype == SubscriptionTypePayPal
    ensures !u.UnSubscribe(now).IsSubscribed() && !u.UnSubscribe(now).IsPayPal()
    ensures u.UnSubscribe(now).status == StatusLocked && u.UnSubscribe(now).statusAt == now
    ensures u.Subscribe(sid, stype).UnSubscribe(now) == u.UnSubscribe(now)
  {
  }
}
