# Syncloud redirect: a verified model of its core

Syncloud's redirect service gives each device a name under the shared zone
(`<label>.syncloud.it`) or a custom domain. It then keeps the DNS records of
that name pointed at the device. This project models the service's core in
Dafny and proves properties of that model. Two implementations are covered:

- **The Go backend**:
  - field validation, in the current `FieldValidator` and the older `Validator`;
  - the change detector;
  - user and domain records and the user status machine;
  - the user cleaner and the stale-domain cleaner;
  - the domain, user, action and certbot services;
  - the Route 53 record builder;
  - the mailer;
  - the error types and their mapping to HTTP statuses;
  - the release-notification job.
- **The legacy Python service**: its validator, its account manager and its
  two exception modules.

There is one Dafny module per source file. `Basics` holds the shared
helpers: options, results, string search and the character classes that
stand in for the regular expressions.

**How the model is built:**

- Objects whose methods assign their own fields are classes, and their
  methods are proved against functions on the row values. These are the
  user and domain records, the acquire request, the validators, the
  response writer and the sent-emails file.
- Databases, the DNS provider, the mailer, PayPal and the file system are
  abstract classes. Each holds maps or logs of what was stored, published or
  sent.
- Every call into a collaborator may fail. The model uses a
  non-deterministic choice for this, so each contract says exactly what a
  success does and what still holds after any failure.
- Foreign primitives are parameters of the model: Go's `net.ParseIP`,
  Python's `socket.inet_aton`, the password hash, UUIDs and the clock.

The wildcard map iteration of Go (`ParseBody`) and the unspecified order of
`ToParametersMessages` are also modelled as choices. A ghost witness
records the order that was taken.

## Model

| member | source | states |
|---|---|---|
| Errors.Message | backend/model/parameters_error.go:12-14 | err.Error() per error kind: the fixed text of a parameter error, the internal message of a service error, AWS "code: message", or the message of a plain error |
| Errors.NewServiceError | backend/model/service_error.go:14-16 | a service error with status 400 whose Error() is the message |
| Errors.NewServiceErrorWithCode | backend/model/service_error.go:18-20 | a service error with the caller's status whose Error() is the message |
| Errors.SingleParameterError | backend/service/users.go:143 | a parameter error naming exactly one field with exactly one message |
| Errors.ServiceErrorConstructorsAgree | backend/model/service_error.go:14-20 | NewServiceError(m) is NewServiceErrorWithCode(m, 400) |
| ModelError.ParametersError | backend/model/error.go:9-11 | status 400, no underlying error, the given messages |
| ModelError.ServiceError | backend/model/error.go:13-15 | status 400, the given error, no messages |
| ModelError.UnknownError | backend/model/error.go:17-19 | status 500, the given error, no messages |
| ModelError.OnlyParametersErrorCarriesMessages | backend/model/error.go:9-19 | only ParametersError carries messages; it and ServiceError are below 500 and UnknownError is 500 |
| Change.Equals | backend/change/detector.go:37-45 | true when both are nil, false when exactly one is nil, otherwise equality of the strings |
| Change.Changed | backend/change/detector.go:24-35 | true iff the map-local flag differs or any of the ip, local ip, ipv6 or dkim pairs is not Equals; equivalently iff the DNS values differ |
| Change.EqualsIsEquality | backend/change/detector.go:37-45 | Equals coincides with equality of the optional values |
| Change.EqualsReflexive | backend/change/detector.go:37-45 | Equals(x, x) |
| Change.EqualsSymmetric | backend/change/detector.go:37-45 | Equals(x, y) == Equals(y, x) |
| Change.UnchangedWhenSame | backend/change/detector.go:24-35 | Changed is false when every new value equals the existing one |
| Change.ChangedSymmetric | backend/change/detector.go:24-35 | swapping the existing and the new values does not change the answer |
| LegacyService.Equals | backend/service/service.go:121-129 | the older copy of Equals is equality of the optional values |
| LegacyService.Changed | backend/service/service.go:108-119 | the older Changed holds iff the DNS values differ |
| LegacyService.EqualsAgreesWithDetector | backend/service/service.go:121-129 | the two copies of Equals agree on every input |
| LegacyService.ChangedAgreesWithDetector | backend/service/service.go:108-119 | the two copies of Changed agree on every input |
| LegacyService.OverwrittenIsRefreshedWithBothFamilies | backend/service/service.go:77-89 | the legacy overwrite and change test are the newer service's with IPv4 and IPv6 both enabled |
| LegacyService.UpdateChangesIffDnsValuesDiffer | backend/service/service.go:77-89 | Changed, computed before the overwrite, holds exactly when the overwrite alters a value that reaches DNS |
| LegacyService.CheckUpdate | backend/service/service.go:44-59 | passes iff the token, ip, local ip, protocol and local port are valid, returning the chosen values; otherwise status 400 with the messages |
| LegacyService.LegacyDns.UpdateDomain | backend/service/service.go:91-96 | a success appends (main domain, domain) to the published updates; a failure changes nothing |
| LegacyService.Service.GetDomain | backend/service/service.go:21-43 | the token's stored domain when its owner is active; "unknown domain update token" (400) for an unknown token or an inactive owner; a database failure as 500 |
| LegacyService.Service.Update | backend/service/service.go:44-106 | invalid input is 400 with messages and touches nothing; an unknown token is the 400 service error; on success the domain is overwritten, published only when Changed, stamped with now and saved, and is returned |
| LegacyService.Service.Overwrite | backend/service/service.go:77-105 | the overwrite of the found domain: publish only when Changed, stamp, save; failures are 500 and leave the domains alone |
| UserModel.User.FromRow | backend/model/user.go:16-29 | the object holds exactly the given row |
| UserModel.User.TrialEmailSent | backend/model/user.go:55-58 | the new row is the old one with Status TrialEmailSent and StatusAt now |
| UserModel.User.LockEmailSent | backend/model/user.go:68-71 | the new row is the old one with Status LockEmailSent and StatusAt now |
| UserModel.User.Lock | backend/model/user.go:73-76 | the new row is the old one with Status Locked and StatusAt now |
| UserModel.User.Subscribe | backend/model/user.go:82-86 | the new row has the subscription id, the type and Status Subscribed, other fields unchanged |
| UserModel.User.UnSubscribe | backend/model/user.go:88-93 | the new row has no subscription id or type, Status Locked and StatusAt now |
| UserModel.ReadyChecksExclusive | backend/model/user.go:39-49 | the lock-email, lock and remove checks look at different statuses, so at most one holds; a Created or Subscribed user is ready for none |
| UserModel.NothingDueRightAfterTransition | backend/model/user.go:35-76 | right after a timed transition at now, no ready-for check holds at that same now |
| UserModel.ReadinessPersists | backend/model/user.go:35-37 | once a status is N days old it stays so at every later instant |
| UserModel.ThresholdIsStrict | backend/model/user.go:35-37 | a status exactly N days old is not yet N days old, one second later it is |
| UserModel.LockEmailThresholdExample | backend/model/user.go:39-41 | a trial mail sent 19 days ago is not followed up and one sent 21 days ago is |
| UserModel.TimedTransitionsTouchOnlyStatus | backend/model/user.go:55-76 | TrialEmailSent, LockEmailSent and Lock set Status and StatusAt and change nothing else |
| UserModel.SubscriptionTransitions | backend/model/user.go:82-97 | Subscribe makes IsSubscribed true, keeps StatusAt, and is PayPal iff the type is 1; UnSubscribe makes IsSubscribed and IsPayPal false, Locked at now, and erases any earlier Subscribe |
| DomainModel.DomainRow.FQDN | backend/model/domain.go:45-47 | the name followed by one dot |
| DomainModel.DomainRow.AccessIp | backend/model/domain.go:49-54 | the local ip when MapLocalAddress is set, the ip otherwise |
| DomainModel.DomainRow.DnsIpv4 | backend/model/domain.go:76-82 | the access address exactly when it parses as IPv4, otherwise none |
| DomainModel.DomainRow.DnsIpv6 | backend/model/domain.go:56-74 | Ipv6 when it is a pure IPv6 address, otherwise the access address when that is pure IPv6, otherwise none; any result parses as IPv6 |
| DomainModel.DomainRow.BackwardCompatible | backend/model/domain.go:37-43 | a free name sets the deprecated label to the text before "."+main; any other name leaves the record unchanged |
| DomainModel.IsFree | backend/model/domain.go:84-86 | true iff the name is longer than the main domain and has a dot right before it, as the "."+main suffix test does |
| DomainModel.MainDomainNotFree | backend/model/domain.go:84-86 | the main domain itself is not free |
| DomainModel.LabelUnderMainIsFree | backend/model/domain.go:84-86 | label + "." + main is free |
| DomainModel.Domain.FromRow | backend/model/domain.go:11-35 | the object holds exactly the given row |
| DomainModel.Domain.BackwardCompatibleDomain | backend/model/domain.go:37-43 | the object's new row is BackwardCompatible of the old row |
| DomainModel.DomainAcquireRequest.constructor | backend/model/domain_acquire_request.go:5-13 | the request holds the given fields |
| DomainModel.DomainAcquireRequest.ForwardCompatibleDomain | backend/model/domain_acquire_request.go:15-20 | a present deprecated label sets Domain to label+"."+main, overwriting any value; an absent one leaves Domain as it was; no other field changes |
| DomainModel.DomainAvailabilityRequest.IsFree | backend/model/domain_availability_request.go:14-16 | the dereferenced domain ends with "."+main; the main domain itself is not free |
| DomainModel.AvailabilityAgreesWithIsFree | backend/model/domain_availability_request.go:14-16 | the request's IsFree is model.IsFree on its domain |
| DomainModel.ForwardBackwardRoundTrip | backend/model/domain.go:37-43 | the name built from a dot-free label is free, and BackwardCompatible reads the same label back out of it |
| UserCleaner.CleanerState.Get | backend/user/cleaner_state.go:25-45 | a successful read returns the stored cursor |
| UserCleaner.CleanerState.Set | backend/user/cleaner_state.go:47-49 | a successful write stores the id; a failure keeps the old cursor |
| UserCleaner.Remover.DeleteAllDomains | backend/user/cleaner.go:31-33 | a success logs the user whose domains went; a failure logs nothing |
| UserCleaner.PayPalChecker.IsActive | backend/user/cleaner.go:114-118 | a successful lookup answers whether the provider reports the subscription active |
| UserCleaner.Cleaner.Clean | backend/user/cleaner.go:86-191 | without a next user the cursor goes back to 0 and nothing else changes; otherwise the smallest user id above the cursor gets exactly the step Due says (keep, unsubscribe, trial, lock-soon, lock or remove, with its mail, domain removal and table changes); the cursor then moves to that id except after an unsubscription; any failure leaves the cursor |
| UserCleaner.Cleaner.CleanSubscribed | backend/user/cleaner.go:105-133 | non-PayPal and active PayPal subscriptions are kept and the cursor moves on; an inactive PayPal subscription is cancelled (Locked), its domains removed, the user mailed, and the cursor is not written |
| UserCleaner.Cleaner.CleanUnsubscribed | backend/user/cleaner.go:135-189 | the checks run in turn on the user as the previous one left it, and together perform exactly the one step Due names |
| UserCleaner.Cleaner.TrialStep | backend/user/cleaner.go:135-145 | the user becomes TrialEmailSent at now, is saved, and gets the trial mail |
| UserCleaner.Cleaner.LockSoonStep | backend/user/cleaner.go:146-156 | the user becomes LockEmailSent at now, is saved, and gets the lock-soon mail |
| UserCleaner.Cleaner.LockStep | backend/user/cleaner.go:157-171 | the user's domains are removed, then the Locked user is saved and mailed |
| UserCleaner.Cleaner.RemoveStep | backend/user/cleaner.go:172-189 | the domains, then the user's actions, then the user go, and the removal mail is sent |
| UserCleaner.NothingDueTwiceAtOneInstant | backend/user/cleaner.go:135-171 | after any step at now, a second Clean at the same now has nothing to do for that user |
| UserCleaner.LockSoonAfterTwentyDays | backend/user/cleaner.go:146-156 | 19 days after the trial mail nothing is due, 21 days after it the lock-soon mail is |
| UserCleaner.LockAndRemoveAfterTenDays | backend/user/cleaner.go:157-189 | within 10 days of the lock-soon mail or of the lock nothing is due; after 11 the account is locked, or removed |
| UserCleaner.SubscribersKept | backend/user/cleaner.go:105-120 | a subscription that is not an inactive PayPal one is never touched |
| DnsCleaner.DomainRemover.DeleteDomain | backend/dns/cleaner.go:17-19 | a success logs the (owner, name) pair; a failure logs nothing |
| DnsCleaner.Cleaner.Clean | backend/dns/cleaner.go:58-113 | no candidate token or no domain means no effect; a fresh domain is left alone; a stale domain of an unsubscribed owner is removed and the owner mailed (a failed mail is not reported); a stale domain of a subscriber is kept with LastUpdate now; failures change nothing |
| DnsCleaner.StaleAtCutoff | backend/dns/cleaner.go:78-85 | a domain updated exactly at the cutoff is fresh, one second earlier is stale, never updated is stale |
| DnsCleaner.KeptDomainIsFresh | backend/dns/cleaner.go:104-111 | a kept domain is fresh afterwards, so another Clean at the same instant passes it by |
| Store.Db.constructor | backend/db/mysql.go:21-28 | a new database holds no users, domains or actions |
| Store.Db.GetUser | backend/db/mysql.go:49-51 | the stored user with that id, or none when there is no such row; a failure is the database error |
| Store.Db.GetUserByEmail | backend/db/mysql.go:53-55 | a found user is stored under its id and has that email; none means no stored user has it |
| Store.Db.InsertUser | backend/db/mysql.go:92-120 | the user is stored under a fresh positive id, which is returned; other tables are unchanged; a failure changes nothing |
| Store.Db.UpdateUser | backend/db/mysql.go:122-154 | the row with the user's id is overwritten (no row: no effect); nothing else changes |
| Store.Db.DeleteUser | backend/db/mysql.go:195-209 | exactly that user row disappears; nothing else changes |
| Store.Db.GetNextUserId | backend/user/cleaner.go:11 | the smallest stored user id above the given one, and 0 exactly when there is none |
| Store.Db.GetAction | backend/db/mysql.go:487-509 | a found action is stored and has that user and type; none means no stored action has both |
| Store.Db.GetActionByToken | backend/db/mysql.go:511-533 | a found action is stored and has that token and type; none means no stored action has both |
| Store.Db.InsertAction | backend/db/mysql.go:535-560 | the action is stored under a fresh id; other tables are unchanged; a failure changes nothing |
| Store.Db.UpdateAction | backend/db/mysql.go:562-588 | the row with the action's id is overwritten (no row: no effect); nothing else changes |
| Store.Db.DeleteActions | backend/db/mysql.go:590-604 | exactly the actions of that user disappear; nothing else changes |
| Store.Db.DeleteAction | backend/db/mysql.go:606-620 | exactly that action row disappears; nothing else changes |
| Store.Db.GetDomainByToken | backend/db/mysql.go:211-213 | a found domain is stored and carries that update token; none means no stored domain carries it |
| Store.Db.GetDomainByName | backend/db/mysql.go:215-217 | a found domain is stored and has that name; none means no stored domain has it |
| Store.Db.GetUserDomains | backend/db/mysql.go:331-400 | every returned domain is stored and owned by the user, every stored domain of the user is returned, and none twice |
| Store.Db.InsertDomain | backend/db/mysql.go:453-485 | the domain is stored under a fresh id; other tables are unchanged; a failure changes nothing |
| Store.Db.UpdateDomain | backend/db/mysql.go:402-451 | the row with the domain's id is overwritten (no row: no effect); nothing else changes |
| Store.Db.DeleteDomain | backend/db/mysql.go:300-313 | exactly that domain row disappears; nothing else changes |
| Store.Db.DeleteAllDomains | backend/db/mysql.go:315-329 | exactly the domains of that user disappear; nothing else changes |
| Store.Db.GetDomainTokenUpdatedBefore | backend/db/mysql.go:219-235 | the token of some domain never updated or updated before the instant, or "" when no such domain has a token |
| MailService.SplitTemplate | backend/service/mail.go:159-170 | a template without a newline is the parse error; otherwise the subject is the first line with every "Subject: " removed and the body is everything after that newline |
| MailService.SubstituteWithoutPlaceholders | backend/service/mail.go:160-164 | a template holding none of the placeholders comes out of substitution unchanged, whatever the key order |
| MailService.ParseBody | backend/service/mail.go:159-170 | each key is substituted exactly once, in some order (the map order is left open), and the result is the split of the substituted text; a template holding no placeholder is only split; the only error is "cannot parse template" |
| MailService.SubstituteAppend | backend/service/mail.go:160-162 | substituting one more key is replacing its placeholder in the text substituted so far |
| MailService.ParseBodyEmptyMap | backend/service/mail.go:159-170 | with no substitutions the template is only split |
| MailService.SplitAtFirstNewline | backend/service/mail.go:165-169 | a text cut at its first newline parses into that line (without "Subject: ") and the rest |
| MailService.SubjectLineTemplate | backend/service/mail.go:165-169 | a "Subject: " line followed by a body parses into the bare subject and the body |
| MailService.Mail.constructor | backend/service/mail.go:31-57 | a new mailer keeps its settings and has sent nothing |
| MailService.Mail.TemplateOf | backend/service/mail.go:59-124 | each notice's template, recipients (the user, or the user and the device-error address where the source adds it) and substitutions (token and main domain, main domain, main and user domain, or none) |
| MailService.Mail.SendNotification | backend/service/mail.go:126-144 | a missing template or an unparsable one is an error; a success hands exactly one message, with the parsed subject and body, from the sender to the recipients; an error sends nothing |
| MailService.Mail.Send | backend/service/mail.go:59-124 | a success records the notice and sends one message from the sender to the notice's recipients whose subject and body are the notice's template with its substitutions (token, domains) applied once per key in some order; an error records and sends nothing |
| MailService.Mail.SendLogs | backend/service/mail.go:146-157 | a success sends the fixed subject and preamble followed by the data, to the user and, on request, to the device-error address; an error sends nothing |
| Actions.UnknownTokenAsWritten | backend/service/actions.go:37-39 | the error an unknown token gets as written: a service error with the message and status code 0 |
| Actions.UnknownToken | backend/service/actions.go:37-39 | the corrected error: the service error the constructor builds, with status 400 |
| Actions.UniquePairsReplace | backend/service/actions.go:77-83 | updating an action in place (same id, user and type) keeps at most one action per user and type |
| Actions.UniquePairsAdd | backend/service/actions.go:84-91 | inserting an action for a user and type that had none keeps at most one action per user and type |
| Actions.Actions.constructor | backend/service/actions.go:28-30 | the actions service works on the given database |
| Actions.Actions.UpsertAction | backend/service/actions.go:70-94 | the action of the user and type now carries a fresh token stamped now: the existing row of that pair is overwritten and returned, or, when the pair had none, a new one is inserted under a fresh id and returned with id 0, as the insert leaves the Go struct's id unset; users and domains are unchanged; at most one action per pair is kept |
| Actions.Actions.UpsertActivateAction | backend/service/actions.go:54-56 | the upsert for the activation type: the returned action is the stored one, or an inserted one with id 0 |
| Actions.Actions.UpsertPasswordAction | backend/service/actions.go:66-68 | the upsert for the password type: the returned action is the stored one, or an inserted one with id 0 |
| Actions.Actions.GetActionOfType | backend/service/actions.go:32-52 | a found action is the stored one with that token and type; an unknown token is the service error with the given message, and then no stored action has that token and type |
| Actions.Actions.GetActivateAction | backend/service/actions.go:32-41 | the lookup of an activation token; an unknown one is "invalid activation token" |
| Actions.Actions.GetPasswordAction | backend/service/actions.go:43-52 | the lookup of a password token; an unknown one is "invalid password token" |
| Actions.Actions.DeleteActions | backend/service/actions.go:58-60 | exactly the user's actions disappear; users and domains are unchanged |
| Actions.Actions.DeleteAction | backend/service/actions.go:62-64 | exactly that action disappears; users and domains are unchanged |
| Users.PayPalSubscriptions.Unsubscribe | backend/service/users.go:40-42 | an accepted cancellation is recorded once, in order; a refused one records nothing |
| Users.CheckCredentials | backend/service/users.go:68-73 | validation passes exactly when the email is well formed and a password is present, and then yields the lower-cased email and the password; otherwise a parameter error |
| Users.CheckRegistration | backend/service/users.go:132-137 | validation passes exactly when the email is well formed and the password long enough, and then yields the lower-cased email and the password; otherwise a parameter error |
| Users.CheckPasswordSet | backend/service/users.go:231-236 | validation passes exactly when a token is present and the password long enough; otherwise a parameter error |
| Users.Users.constructor | backend/service/users.go:52-65 | the service keeps its database, actions, mailer, subscription client, hash and activation setting |
| Users.Users.Authenticate | backend/service/users.go:67-81 | a parameter error exactly when validation fails; otherwise either "authentication failed" or the stored, active user with the lower-cased email whose hash is the password's |
| Users.Users.Activate | backend/service/users.go:83-109 | a success finds the activation action of the token, its inactive owner becomes active and that action is deleted; an already active owner gets "user is already active" and nothing changes; any error leaves the actions alone |
| Users.Users.Delete | backend/service/users.go:123-129 | a success removes exactly the user's actions and then the user; domains are unchanged |
| Users.Users.CreateNewUser | backend/service/users.go:131-175 | invalid input is a parameter error and changes nothing; a taken email is the "already registered" error; a success stores a fresh user with the lower-cased email, the password's hash, notifications on and the created status, active unless activation by email is on, and then also an activation action whose token is mailed |
| Users.Users.Unsubscribe | backend/service/users.go:177-193 | a user without a subscription gets "no subscription" and nothing changes; PayPal is told only for PayPal subscriptions; a success saves the unsubscribed user and mails the plan-unsubscribed notice |
| Users.Users.Subscribe | backend/service/users.go:195-205 | a subscribed user gets "existing subscription" and nothing changes; a success saves the user with the new subscription and mails the plan-subscribed notice |
| Users.Users.RequestPasswordReset | backend/service/users.go:207-228 | a missing or inactive user gets no token, no action and no mail; an active one gets a password action whose token is mailed and returned; users are unchanged |
| Users.Users.UserSetPassword | backend/service/users.go:230-261 | invalid input is a parameter error and changes nothing; a success finds the password action of the token, stores the new password's hash on its owner, mails the set-password notice and deletes the action |
| Domains.DnsChangedIffValuesDiffer | backend/service/domains.go:310-324 | Update rewrites DNS exactly when one of the values that reach DNS (local-address flag, IPv4, IPv6, DKIM key, local address) differs between the stored and the updated domain |
| Domains.RefreshedRespectsFlags | backend/service/domains.go:310-334 | with IPv4 disabled the domain keeps no IPv4 and no local address, with IPv6 disabled no IPv6; otherwise it takes the request's addresses, and the device and web values are copied in |
| Domains.AcquiredDomain | backend/service/domains.go:237-247 | a newly acquired domain has the name, the MAC address, the device name and title, the owner, a fresh token, LastUpdate now and no addresses |
| Domains.FlattenAppend | backend/service/domains.go:114-119 | the batches of one more deleted domain follow those of the earlier ones |
| Domains.LogStep | backend/service/domains.go:114-119 | one loop step appends that domain's batches to what was committed so far |
| Domains.CheckUpdate | backend/service/domains.go:279-292 | Update's validation passes exactly when the token, the address, the local address, the web protocol and the port are acceptable, and then yields the token, the address, the protocol and the port; otherwise a parameter error |
| Domains.CheckAcquire | backend/service/domains.go:218-228 | DomainAcquire's validation passes exactly when the domain, the MAC address, the device name and the title are acceptable; otherwise a parameter error |
| Domains.CheckDomain | backend/service/domains.go:176-181 | Availability's validation passes exactly when the domain field has no error; otherwise a parameter error |
| Domains.Domains.constructor | backend/service/domains.go:49-64 | the service keeps its database, users, DNS, main domain and free zone |
| Domains.Domains.DomainOfToken | backend/service/domains.go:72-85 | the stored domain of the token when its owner exists and is active; otherwise "unknown domain update token" (or the database error) |
| Domains.Domains.GetDomain | backend/service/domains.go:66-88 | the stored domain of the token, with its user label, exactly when the owner is active; an unknown token or an inactive owner is an error |
| Domains.Domains.Present | backend/service/domains.go:96-103 | a domain in a zone of its own gets that zone's name servers; every domain gets its user label |
| Domains.Domains.GetDomains | backend/service/domains.go:90-106 | every stored domain of the user, each once, presented with name servers and user label, in the order the database gave |
| Domains.Domains.DeleteDomainEntries | backend/service/domains.go:142-168 | the domain's records are deleted; a domain in a zone of its own also loses its certbot record and the zone, a "NoSuchHostedZone" answer counting as done; no zone is created |
| Domains.Domains.LogsStep | backend/service/domains.go:114-119 | the deletion batches of a longer prefix extend those of the shorter one |
| Domains.Domains.DeleteEach | backend/service/domains.go:114-119 | the domains are deleted from DNS in order, stopping at the first error; a success commits each one's batches in turn |
| Domains.Domains.DeleteAllDomains | backend/service/domains.go:108-125 | a success deleted every stored domain of the user from DNS and then exactly the user's rows; users and actions are unchanged |
| Domains.Domains.DeleteDomain | backend/service/domains.go:127-140 | a domain of another owner or an unknown name is an error and changes nothing; a success deletes the owner's domain of that name from DNS and then its row |
| Domains.Domains.FindAndCheck | backend/service/domains.go:190-209 | a name held by another user is "User domain name is already in use" on the field; an unknown non-free name without a subscription needs premium; otherwise the caller's own domain or none |
| Domains.Domains.Availability | backend/service/domains.go:170-188 | authentication failures pass through; otherwise the domain field is validated and the answer is the caller's own domain of that name, or none when the name is unheld and the caller may take it |
| Domains.Domains.InsertNewDomain | backend/service/domains.go:237-259 | a new domain is stored under a fresh id, in the free zone when the name is free and otherwise in a newly created zone, under the id the provider's answer yields with its "/hostedzone/" prefix removed |
| Domains.Domains.RefreshOwnDomain | backend/service/domains.go:260-271 | the caller's own domain takes the new token, device fields and LastUpdate and is saved |
| Domains.Domains.DomainAcquire | backend/service/domains.go:211-276 | authentication failures pass through and change nothing; invalid input is a parameter error; a success either refreshed the caller's own domain or inserted an unheld name (a non-free one in a zone created for it, under the id the provider answered, which needs a subscription), with the device fields, a token and LastUpdate now |
| Domains.Domains.AcquireFor | backend/service/domains.go:218-276 | DomainAcquire after authentication: validation, findAndCheck and the write, with a new non-free domain stored under the created zone's id |
| Domains.Domains.SaveAcquired | backend/service/domains.go:235-276 | the write step of DomainAcquire: the insert or the update path with a fresh token, with a new non-free domain stored under the created zone's id |
| Domains.Domains.ApplyUpdate | backend/service/domains.go:310-352 | the stored domain becomes the refreshed one stamped now; DNS is rewritten exactly when the detector reports a change; the result carries the user label |
| Domains.Domains.SaveUpdated | backend/service/domains.go:336-352 | DNS first when it changed (an error stops before the row is saved), then LastUpdate and the row |
| Domains.Domains.Update | backend/service/domains.go:278-352 | invalid input is a parameter error and changes nothing; a success found the token's domain with an active owner, stored it refreshed from the request and stamped now, and rewrote DNS exactly when a DNS value changed |
| Certbot.CertbotDns.constructor | backend/service/certbot.go:25-28 | a fresh provider has accepted no calls |
| Certbot.CertbotDns.CreateCertbotRecord | backend/service/certbot.go:26 | an accepted creation is recorded once with its zone, name and value; a refused one records nothing |
| Certbot.CertbotDns.DeleteCertbotRecord | backend/service/certbot.go:27 | an accepted deletion is recorded once with its zone, name and value; a refused one records nothing |
| Certbot.Certbot.constructor | backend/service/certbot.go:14-19 | the service works on the given database and provider |
| Certbot.Certbot.DomainOfToken | backend/service/certbot.go:31-34 | the stored domain holding the token, or the database error |
| Certbot.Certbot.Present | backend/service/certbot.go:30-40 | a fqdn that does not contain "." + the domain's name is "only same domain is allowed" and creates nothing; the call succeeds exactly when the guard passes and the provider accepted the record in the domain's zone under the fqdn with the value |
| Certbot.Certbot.CleanUp | backend/service/certbot.go:42-52 | the same guard; the call succeeds exactly when it passes and the provider deleted the record in the domain's zone |
| Certbot.SubdomainPasses | backend/service/certbot.go:35 | a challenge name under the domain passes the guard |
| Certbot.ContainmentNotSuffix | backend/service/certbot.go:35 | the guard only asks for containment: "." + the name anywhere in the fqdn passes, even with text after it |
| Certbot.LongerLabelFails | backend/service/certbot.go:35 | a name occurring in the fqdn only inside a longer label fails the guard |
| Route53.ChunksConcat | backend/dns/route53.go:236-247 | joining the chunks of a text gives back the text |
| Route53.ChunksWidths | backend/dns/route53.go:236-247 | there is at least one chunk; every chunk but the last has the full width, the last at most that and, for a non-empty text, at least one character |
| Route53.SplitByConcat | backend/dns/route53.go:236-247 | joining splitBy's pieces gives back the text, for every width |
| Route53.SplitByWidths | backend/dns/route53.go:236-247 | for a width of at least two, splitBy cuts into full-width pieces and a shorter last one |
| Route53.SplitByWidthOne | backend/dns/route53.go:238-243 | for width one the counter restarts at one, so the first piece has one character and the later ones two |
| Route53.DkimChunksExample | backend/dns/route53.go:189-195 | a 28-character DKIM value with a limit of 10 splits into 10, 10 and 8 characters |
| Route53.SplitBy | backend/dns/route53.go:236-247 | the loop's pieces are exactly the ones the splitting specification gives |
| Route53.ChangeOf | backend/dns/route53.go:165-179 | a change carries the action, name, type and ttl and one record per value, in order |
| Route53.NewChange | backend/dns/route53.go:165-179 | the loop builds exactly that change |
| Route53.DomainChangesTail | backend/dns/route53.go:197-218 | a batch has two AAAA changes per IPv6, two A changes per IPv4, one DKIM change per key, then MX, SPF and TXT; every change has the batch's action; MX holds the mx value and SPF and TXT the spf value |
| Route53.DomainChangesLayout | backend/dns/route53.go:197-218 | the AAAA pair comes first (name, then wildcard), then the A pair, then the DKIM TXT record under "mail._domainkey." |
| Route53.PlaceholdersCoverEveryRecord | backend/dns/route53.go:126-136 | the placeholder batch holds eight changes covering AAAA, A and DKIM for the name and its wildcard |
| Route53.StripZoneIdPrefix | backend/dns/route53.go:85 | a provider id "/hostedzone/" + id gives back the id |
| Route53.CreateZoneResult | backend/dns/route53.go:74-87 | a created zone yields its id with "/hostedzone/" removed; an invalid name is a 400 "Invalid domain name" service error; any other provider error passes through |
| Route53.AmazonDns.constructor | backend/dns/route53.go:58-65 | a new client keeps its TXT limit and has committed, created and deleted nothing |
| Route53.AmazonDns.CreateHostedZone | backend/dns/route53.go:67-88 | the answer is the zone result of the provider's reply, and a zone is recorded exactly when it was created |
| Route53.AmazonDns.GetHostedZoneNameServers | backend/dns/route53.go:90-100 | the name servers of the zone's delegation set |
| Route53.AmazonDns.DeleteHostedZone | backend/dns/route53.go:102-112 | a success records the zone as deleted; a failure returns the provider's error and records nothing |
| Route53.AmazonDns.CommitChanges | backend/dns/route53.go:220-234 | an accepted batch is recorded once for its zone; a refused one records nothing |
| Route53.AmazonDns.ChangeDkim | backend/dns/route53.go:189-195 | one TXT change under "mail._domainkey." + domain whose only value is the quoted DKIM chunks |
| Route53.AmazonDns.ActionDomain | backend/dns/route53.go:197-218 | a success commits exactly the domain's batch to the zone; a failure commits nothing |
| Route53.AmazonDns.DeleteDomainRecords | backend/dns/route53.go:126-136 | a success commits the placeholder batches as UPSERT and then as DELETE; a failure leaves at most the first |
| Route53.AmazonDns.UpdateDomainRecords | backend/dns/route53.go:114-124 | a success removes the records and then creates the domain's own (IPv4, IPv6, DKIM, "v=spf1 a mx -all", "1 " + fqdn); a failure has committed a proper prefix of those batches |
| Route53.AmazonDns.CreateCertbotRecord | backend/dns/route53.go:138-147 | one UPSERT of a TXT record with every value in double quotes and the certbot ttl |
| Route53.AmazonDns.DeleteCertbotRecord | backend/dns/route53.go:149-163 | a success upserts and then deletes a "cleanup" TXT record under the name |
| Route53.Quoted | backend/dns/route53.go:141-143 | every value wrapped in double quotes, in order |
| Validation.Flat | backend/validation/validator.go:34 | one flat entry "field message" per message, in order |
| Validation.Record | backend/validation/validator.go:35-39 | appending messages extends that field's list (creating the entry when new) and leaves every other field alone; no messages, no change |
| Validation.RecordWellFormed | backend/validation/validator.go:33-40 | appending keeps the two accumulators in step: no field with an empty list, and a flat list that is empty exactly when the per-field map is |
| Validation.RecordTwice | backend/validation/validator.go:33-40 | appending in two steps is appending the concatenation, in both accumulators: errors only accumulate, in order |
| Validation.FlatTwice | backend/validation/validator.go:34 | the flat entries of two message lists are those of their concatenation |
| Validation.LabelErrors | backend/validation/validator.go:53-62 | "Invalid characters" exactly when the label is not made of word characters and dashes, "Too short (< 5)" exactly when it is shorter than 5 UTF-8 bytes, "Too long (> 50)" exactly when longer than 50 bytes; none exactly for a valid label |
| Validation.DomainErrors | backend/validation/validator.go:42-66 | a missing domain is "Missing", the main domain itself "Invalid domain", a name outside the main domain has no errors, and a name under it gets the label messages of the text before the first ".main" |
| Validation.EmailRule | backend/validation/validator.go:68-81 | a missing email is "Missing"; one without a match of the email pattern is "Not valid email"; the result is the lower-cased email exactly when there is no message |
| Validation.PasswordErrors | backend/validation/validator.go:93-98 | a message exactly when the password is missing |
| Validation.NewPasswordErrors | backend/validation/validator.go:83-91 | "Missing" or "Should be 7 or more characters"; none exactly for a password of 7 or more UTF-8 bytes, as Go's len counts |
| Validation.WebProtocolRule | backend/validation/validator.go:100-112 | the lower-cased protocol is returned exactly when it is http or https; otherwise "Missing" or "Protocol should be either http or https" |
| Validation.PortRule | backend/validation/validator.go:122-133 | the port is returned exactly when it lies in 1..65535; otherwise "Missing" or "Should be between 1 and 65535" |
| Validation.RequiredErrors | backend/validation/validator.go:135-151 | "Missing" exactly when the value is absent |
| Validation.IpSyntaxErrors | backend/validation/validator.go:153-157 | "Invalid IP address" exactly when the address does not parse |
| Validation.IpRule | backend/validation/validator.go:159-170 | the request's address wins over the default; a missing one is "Missing"; there is no message exactly when the chosen address parses |
| Validation.LocalIpErrors | backend/validation/validator.go:172-176 | an absent local address is fine; a present one gets a message exactly when it does not parse |
| Validation.MacRule | backend/validation/validator.go:178-200 | the address is returned exactly when it is six hex pairs separated by ':' or '-'; otherwise "Missing" or "MAC address has wrong format" |
| Validation.FieldValidator.constructor | backend/validation/validator.go:17-19 | a new validator holds no errors |
| Validation.FieldValidator.ToParametersMessages | backend/validation/validator.go:21-27 | one entry per field with messages, carrying that field's list, each field once |
| Validation.FieldValidator.HasErrors | backend/validation/validator.go:29-31 | true exactly when some field has a message, which is exactly when any error was added |
| Validation.FieldValidator.AddFieldError | backend/validation/validator.go:33-40 | exactly the one message is appended to the field, in both accumulators, and nothing else changes |
| Validation.FieldValidator.Domain | backend/validation/validator.go:42-66 | exactly the domain messages are appended to the field |
| Validation.FieldValidator.Label | backend/validation/validator.go:53-62 | exactly the label messages are appended to the field |
| Validation.FieldValidator.AddWhen | backend/validation/validator.go:54-62 | the message is appended exactly when the condition holds |
| Validation.FieldValidator.Email | backend/validation/validator.go:68-81 | exactly the email messages are appended to "email", and the result is the email rule's |
| Validation.FieldValidator.NewPassword | backend/validation/validator.go:83-91 | exactly the new-password messages are appended to "password"; the password is returned as given |
| Validation.FieldValidator.Password | backend/validation/validator.go:93-98 | exactly the presence message is appended to "password"; the password is returned as given |
| Validation.FieldValidator.WebProtocol | backend/validation/validator.go:100-112 | exactly the protocol messages are appended to "web_protocol", and the result is the rule's |
| Validation.FieldValidator.WebLocalPort | backend/validation/validator.go:114-116 | the port rule on "web_local_port" |
| Validation.FieldValidator.WebPort | backend/validation/validator.go:118-120 | the port rule on "web_port" |
| Validation.FieldValidator.ValidatePort | backend/validation/validator.go:122-133 | exactly the port messages are appended to the field, and the result is the rule's |
| Validation.FieldValidator.Token | backend/validation/validator.go:135-139 | "Missing" on "token" exactly when absent |
| Validation.FieldValidator.DeviceName | backend/validation/validator.go:141-145 | "Missing" on "device_name" exactly when absent |
| Validation.FieldValidator.DeviceTitle | backend/validation/validator.go:147-151 | "Missing" on "device_title" exactly when absent |
| Validation.FieldValidator.CheckIpAddress | backend/validation/validator.go:153-157 | exactly the syntax message is appended to the named field |
| Validation.FieldValidator.Ip | backend/validation/validator.go:159-170 | exactly the address messages are appended to "ip", and the chosen address is returned |
| Validation.FieldValidator.LocalIp | backend/validation/validator.go:172-176 | exactly the local-address message is appended to "local_ip" |
| Validation.FieldValidator.DeviceMacAddress | backend/validation/validator.go:178-200 | exactly the MAC messages are appended to "device_mac_address", and the result is the rule's |
| Validation.EmptyLabelExample | backend/validation/validator.go:49-62 | ".syncloud.it" under "syncloud.it" has an empty label: invalid characters and too short |
| Validation.ShortLabelText | backend/validation/validator.go:51-52 | the label of "use.syncloud.it" is "use" |
| Validation.ShortLabelIsSubdomain | backend/validation/validator.go:46-50 | "use.syncloud.it" is not the main domain and ends in ".syncloud.it" |
| Validation.ShortLabelExample | backend/validation/validator.go:42-66 | "use.syncloud.it" gets only "Too short (< 5)" |
| Validation.MultiBytePasswordAccepted | backend/validation/validator.go:86 | four two-byte characters are eight bytes, so the password is long enough |
| Validation.MultiByteLabelErrors | backend/validation/validator.go:53-62 | a label of three two-byte characters gets "Invalid characters" but not "Too short (< 5)" |
| Validation.MainAndPremiumExamples | backend/validation/validator.go:42-48 | the main domain is "Invalid domain", a name outside it passes, a missing one is "Missing" |
| Validation.ErrorsAggregate | backend/validation/validator.go:33-40 | a missing domain and a missing password give two flat errors |
| Validation.MacExamples | backend/validation/validator.go:178-200 | a colon-separated and a mixed-separator address pass; "wrong_mac" is refused |
| Validation.EmailExamples | backend/validation/validator.go:68-81 | "a@b.c" passes as it is; "invalid.email" is "Not valid email" |
| ServiceValidation.CustomDomainHasOneDot | backend/service/validator.go:64 | the custom-domain pattern can split a name at one '.' only, since neither part may hold a '.' |
| ServiceValidation.NewUserDomainErrors | backend/service/validator.go:42-57 | a missing user domain is "Missing"; a present one gets the label messages, none exactly for word characters and dashes of 5 to 50 UTF-8 bytes |
| ServiceValidation.NewDomainRule | backend/service/validator.go:59-72 | a missing domain is "Missing" and returns none; otherwise the domain is returned, with "Invalid domain name" exactly when it does not match the custom-domain pattern and "Cannot use Syncloud domain" exactly when it is our domain |
| ServiceValidation.CustomDomainAccepted | backend/service/validator.go:59-72 | "example.com" is accepted as a custom domain |
| ServiceValidation.OwnDomainRefused | backend/service/validator.go:68-70 | our own domain matches the pattern but is refused as a Syncloud domain |
| ServiceValidation.ShortCustomDomainRefused | backend/service/validator.go:64-67 | a two-letter label such as "ab.com" does not match the pattern |
| ServiceValidation.Validator.constructor | backend/service/validator.go:17-19 | a new validator holds no errors |
| ServiceValidation.Validator.ToParametersMessages | backend/service/validator.go:21-27 | one entry per field with messages, carrying that field's list, each field once |
| ServiceValidation.Validator.HasErrors | backend/service/validator.go:29-31 | true exactly when some field has a message, which is exactly when any error was added |
| ServiceValidation.Validator.AddFieldError | backend/service/validator.go:33-40 | exactly the one message is appended to the field, in both accumulators, and nothing else changes |
| ServiceValidation.Validator.NewUserDomain | backend/service/validator.go:42-57 | exactly the user-domain messages are appended to "user_domain"; the value is returned as given |
| ServiceValidation.Validator.Label | backend/service/validator.go:46-54 | exactly the label messages are appended to "user_domain" |
| ServiceValidation.Validator.AddWhen | backend/service/validator.go:46-54 | the message is appended exactly when the condition holds |
| ServiceValidation.Validator.NewDomain | backend/service/validator.go:59-72 | exactly the custom-domain messages are appended to "domain", and the result is the rule's |
| ServiceValidation.Validator.UserDomain | backend/service/validator.go:74-78 | "Missing" on "user_domain" exactly when absent |
| ServiceValidation.Validator.Email | backend/service/validator.go:80-93 | the same email rule as the newer validator, on "email" |
| ServiceValidation.Validator.NewPassword | backend/service/validator.go:95-103 | the same new-password rule, on "password"; the password is returned as given |
| ServiceValidation.Validator.Password | backend/service/validator.go:105-110 | the same presence rule, on "password" |
| ServiceValidation.Validator.WebProtocol | backend/service/validator.go:112-124 | the same protocol rule, on "web_protocol" |
| ServiceValidation.Validator.WebLocalPort | backend/service/validator.go:126-128 | the port rule on "web_local_port" |
| ServiceValidation.Validator.WebPort | backend/service/validator.go:130-132 | the port rule on "web_port" |
| ServiceValidation.Validator.ValidatePort | backend/service/validator.go:134-145 | exactly the port messages are appended to the field, and the result is the rule's |
| ServiceValidation.Validator.Token | backend/service/validator.go:147-151 | "Missing" on "token" exactly when absent |
| ServiceValidation.Validator.DeviceName | backend/service/validator.go:153-157 | "Missing" on "device_name" exactly when absent |
| ServiceValidation.Validator.DeviceTitle | backend/service/validator.go:159-163 | "Missing" on "device_title" exactly when absent |
| ServiceValidation.Validator.CheckIpAddress | backend/service/validator.go:165-169 | exactly the syntax message is appended to the named field |
| ServiceValidation.Validator.Ip | backend/service/validator.go:171-182 | the same address rule on "ip", returning the chosen address |
| ServiceValidation.Validator.LocalIp | backend/service/validator.go:184-188 | the same local-address rule on "local_ip" |
| ServiceValidation.Validator.DeviceMacAddress | backend/service/validator.go:190-212 | the same MAC rule on "device_mac_address" |
| Rest.ErrorToResponse | backend/rest/common.go:40-52 | a failure response with the error's message; a parameter error is 400 with its parameter messages, a service error has its own status code, anything else is 500 |
| Rest.SuccessResponse | backend/rest/common.go:53-57 | a success response carrying the data and no parameter messages |
| Rest.ResponseWriter.constructor | backend/rest/common.go:74-76 | a fresh writer has written no status and no body |
| Rest.ResponseWriter.WriteHeader | backend/rest/common.go:32 | a code net/http refuses (outside 100..999) aborts the handler; otherwise only the first status written counts |
| Rest.ResponseWriter.Write | backend/rest/common.go:33 | the response is added to the body, with status 200 when no status was written |
| Rest.ResponseWriter.Fail | backend/rest/common.go:24-38 | the error's status and then its failure response; a refused status aborts before anything is written |
| Rest.ResponseWriter.Success | backend/rest/common.go:53-64 | the success response with status 200 when no status was written |
| Rest.ResponseWriter.Handle | backend/rest/common.go:74-94 | a handler's value is sent as a success with 200; an error is sent as its failure response and status, or aborts when its status is refused |
| Rest.ServiceErrorStatusIsHttpStatus | backend/rest/common.go:47-50 | a service error's code is the HTTP status and its message the response's; one from the plain constructor is 400 |
| Rest.OnlyServiceErrorsBreakTheStatus | backend/rest/common.go:40-52 | a refused status can only come from a service error whose own code is out of range |
| Rest.MessagesOnlyForParameterErrors | backend/rest/common.go:44-46 | a response carries parameter messages exactly when the error is a parameter error |
| Rest.UnknownTokenAsWrittenGetsNoResponse | backend/service/actions.go:37-39 | an unknown activation or password token, as written, reaches WriteHeader with status 0, which net/http refuses |
| Rest.UnknownTokenIsBadRequest | backend/service/actions.go:37-39 | with the constructor's status, an unknown token is a 400 failure response with its message |
| Notification.Recorded | backend/cmd/notification/main.go:73-77 | the addresses a sent file records are exactly its lines that are not blank after trimming white space |
| Notification.Eligible | backend/cmd/notification/main.go:101-109 | the addresses a pass mails, in user order, at most one per user |
| Notification.Delivered | backend/cmd/notification/main.go:111-115 | the addresses whose send succeeded, in order |
| Notification.UserSource.constructor | backend/cmd/notification/main.go:41-43 | the users query answers with the given selection |
| Notification.UserSource.GetUsersByField | backend/cmd/notification/main.go:41-43 | a successful query returns the selection for the field and filter |
| Notification.SentFile.constructor | backend/cmd/notification/main.go:52 | the sent file as given |
| Notification.SentFile.OpenForAppend | backend/cmd/notification/main.go:94-98 | opening for append creates the file when it is missing and keeps its lines |
| Notification.SentFile.AppendLine | backend/cmd/notification/main.go:115-119 | a successful write adds exactly that line; a failed one adds nothing |
| Notification.Notification.constructor | backend/cmd/notification/main.go:56-63 | the notifier keeps its users source, mailer, sent file and filter |
| Notification.Notification.LoadSentEmails | backend/cmd/notification/main.go:65-83 | a missing file gives no addresses; otherwise the recorded addresses, or none after a read error |
| Notification.Notification.Send | backend/cmd/notification/main.go:85-123 | a failed query or open mails nothing; otherwise the attempted addresses are a prefix of the eligible ones (all of them when the pass finished), every delivered address is announced, and each delivered address is appended to the file, except the last one when its write failed and stopped the run |
| Notification.Notification.Announce | backend/cmd/notification/main.go:101-122 | the loop of Send over a list of users, with the same promises |
| Notification.Notification.Attempt | backend/cmd/notification/main.go:110-120 | one eligible address is attempted and the loop's bookkeeping kept |
| Notification.Notification.AnnounceTo | backend/cmd/notification/main.go:110-120 | a delivered address gets one announcement and, unless the write failed, one new line; an undelivered one gets neither |
| Notification.AnnouncementsStep | backend/cmd/notification/main.go:111 | one more address adds its announcement at the end |
| Notification.EligibleStep | backend/cmd/notification/main.go:101-109 | one more user extends the eligible list by that user's address or by nothing |
| Notification.EligibleMembers | backend/cmd/notification/main.go:101-109 | an address is eligible exactly when a user with notifications enabled has it and it is not among the sent ones |
| Notification.EligibleAppend | backend/cmd/notification/main.go:101-109 | eligibility is decided user by user |
| Notification.PassEnd | backend/cmd/notification/main.go:101-122 | a pass that stopped early attempted a prefix of the eligible addresses, and one that finished attempted all of them |
| Notification.EligiblePrefix | backend/cmd/notification/main.go:101-109 | the eligible addresses of the first users are a prefix of those of all users |
| Notification.DeliveredStep | backend/cmd/notification/main.go:111-115 | one more send extends the delivered list by its address exactly when it succeeded |
| Notification.DeliveredIffSucceeded | backend/cmd/notification/main.go:111-115 | an address is delivered exactly when one of its sends succeeded |
| Notification.RecordedAppend | backend/cmd/notification/main.go:73-77 | appending lines to the file adds exactly their non-blank addresses |
| Notification.OnlyFailuresRetried | backend/cmd/notification/main.go:65-123 | on the next run an address whose send failed (and that no other send delivered) is mailed again, and a delivered, non-blank address is not |
| PyValidation.UsernameMessages | redirect/validation.py:13-22 | a missing name gets "missing username"; a present one gets one message for each of the charset, the minimum and the maximum length it violates, and no other |
| PyValidation.EmailMessages | redirect/validation.py:24-30 | no message exactly when an email is present and starts with an address |
| PyValidation.PasswordMessages | redirect/validation.py:32-38 | no message exactly when a password of 7 or more characters is present |
| PyValidation.PortMessages | redirect/validation.py:91-100 | no message exactly when the port is present and a string of digits for a number in 1..65535 |
| PyValidation.IpMessages | redirect/validation.py:102-113 | no message exactly when the ip is absent or parses; otherwise "invalid ip" |
| PyValidation.PresenceMessages | redirect/validation.py:69-89 | the missing-value message exactly when the value is absent |
| PyValidation.CreateMessages | redirect/validation.py:9-46 | validate_create reports nothing exactly when every field passes its rule and an ip, when given, parses |
| PyValidation.ValidatePort | redirect/validation.py:91-100 | the port messages and the port as given |
| PyValidation.ValidateIp | redirect/validation.py:102-113 | the ip messages; the request's ip when present, otherwise the remote address |
| PyValidation.ValidateToken | redirect/validation.py:115-122 | "No token provided" exactly when the token is absent, and the token as given |
| PyValidation.ValidateUsername | redirect/validation.py:80-89 | "missing username" exactly when absent, and the name as given |
| PyValidation.ValidatePassword | redirect/validation.py:69-78 | "missing password" exactly when absent, and the password as given |
| PyValidation.CreateUsername | redirect/validation.py:12-22 | exactly the username messages, and the name as given |
| PyValidation.CreateEmail | redirect/validation.py:24-30 | exactly the email messages, and the email as given |
| PyValidation.CreatePassword | redirect/validation.py:32-38 | exactly the password messages, and the password as given |
| PyValidation.ValidateCreate | redirect/validation.py:9-46 | the messages of all five fields in order, with the raw values and the chosen ip |
| PyValidation.ValidateUpdate | redirect/validation.py:48-56 | the token, ip and port messages in that order, none exactly when a token and a valid port are present and a given ip parses |
| PyValidation.ValidateCredentials | redirect/validation.py:58-67 | no message exactly when a username and a password are present |
| PyValidation.WellFormedRequestPasses | redirect/validation.py:9-46 | a well-formed registration request gets no message |
| PyValidation.UsernameWithDotRejected | redirect/validation.py:17-18 | a name with a '.' gets only the charset message |
| PyValidation.ShortUsernameRejected | redirect/validation.py:19-20 | a three-letter name gets only the too-short message |
| PyValidation.LongUsernameRejected | redirect/validation.py:21-22 | a 51-character word name gets only the too-long message |
| PyValidation.EmptyUsernameGetsTwoMessages | redirect/validation.py:17-20 | the empty name gets the charset and the too-short message |
| PyValidation.TrailingNewlineAccepted | redirect/validation.py:17 | the pattern's `$` lets a valid name followed by a newline through |
| PyValidation.PortBounds | redirect/validation.py:98 | 1 and 65535 pass; 0, 65536, the empty string and a non-digit do not |
| PyValidation.EmailIsAnchored | redirect/validation.py:29 | the pattern must match from the start: "me@mail.com" passes, "a@b@c.d" and "invalid.email" do not |
| PyServiceErrors.NewServiceException | redirect/servicesexceptions.py:2-7 | the message is kept, no parameter messages, and the status is the given one, left unassigned when None is passed |
| PyServiceErrors.NewParametersException | redirect/servicesexceptions.py:10-13 | a service exception with the same message and status that also carries the parameter messages |
| PyServiceErrors.BadRequest | redirect/servicesexceptions.py:16-17 | the default status 400 |
| PyServiceErrors.Conflict | redirect/servicesexceptions.py:20-21 | status 409, with the message and no parameter messages |
| PyServiceErrors.Forbidden | redirect/servicesexceptions.py:24-25 | status 403, with the message and no parameter messages |
| PyServiceErrors.NotFound | redirect/servicesexceptions.py:28-29 | status 404, with the message and no parameter messages |
| PyServiceErrors.ParametersError | redirect/servicesexceptions.py:32-33 | the fixed message, status 400 and the parameter messages |
| PyServiceErrors.ConstructorsAreDistinctClientErrors | redirect/servicesexceptions.py:16-29 | the four status helpers give four distinct 4xx codes and keep the message |
| PyServiceErrors.OnlyParametersErrorsCarryMessages | redirect/servicesexceptions.py:2-33 | only a parameters exception carries parameter messages, and parameters_error has bad_request's status |
| PyServiceErrors.NoneLeavesStatusUnassigned | redirect/servicesexceptions.py:6-7 | passing None leaves a service or parameters exception without a status attribute |
| PyRestErrors.NewRestException | redirect/restexceptions.py:2-9 | the message is kept; the status is the given one, or the class default 400 when None is passed |
| PyRestErrors.BadRequest | redirect/restexceptions.py:11-12 | message with status 400 |
| PyRestErrors.Conflict | redirect/restexceptions.py:14-15 | message with status 409 |
| PyRestErrors.StatusAlwaysSet | redirect/restexceptions.py:2-15 | a rest exception always has a status: the given one or 400; passing 400 is the same as passing nothing; bad_request and conflict differ |
| AccountManager.Str | redirect/accountmanager.py:123 | format() prints a present value as it is and an absent one as "None" |
| AccountManager.BadInput | redirect/accountmanager.py:19-20 | the validation answer: the messages joined by ", ", a newline, status 400, no headers |
| AccountManager.Plain | redirect/accountmanager.py:81-83 | a two-element answer: the text, the status and no headers |
| AccountManager.AccountDb.constructor | redirect/accountmanager.py:11 | the database answers with the given functions and has changed nothing |
| AccountManager.AccountDb.Exists | redirect/accountmanager.py:29 | whether a user with that name or email is known |
| AccountManager.AccountDb.Insert | redirect/accountmanager.py:40 | a success records exactly the new account; a failure records nothing |
| AccountManager.AccountDb.Activate | redirect/accountmanager.py:78 | whether the token's user could be activated; only a true answer records the activation |
| AccountManager.AccountDb.ExistingToken | redirect/accountmanager.py:114 | whether the token is known |
| AccountManager.AccountDb.GetUserInfoByToken | redirect/accountmanager.py:79 | the name, ip and port stored for the token |
| AccountManager.AccountDb.Update | redirect/accountmanager.py:121 | a success records exactly the new ip and port for the token; a failure records nothing |
| AccountManager.AccountDb.GetPortByUsername | redirect/accountmanager.py:63 | the port stored for the name, if any |
| AccountManager.AccountDb.ValidUser | redirect/accountmanager.py:95 | whether the name and password belong to a user |
| AccountManager.AccountDb.GetTokenByPassword | redirect/accountmanager.py:96 | the token of the user with that name and password |
| AccountManager.AccountDb.GetUserInfoByPassword | redirect/accountmanager.py:138 | the name, ip and port of the user with that name and password |
| AccountManager.AccountDb.DeleteUser | redirect/accountmanager.py:140 | a success records exactly that deletion; a failure records nothing |
| AccountManager.RecordsDns.constructor | redirect/accountmanager.py:12 | the DNS updater has made no calls |
| AccountManager.RecordsDns.CreateRecords | redirect/accountmanager.py:80 | a success records exactly those records as created |
| AccountManager.RecordsDns.UpdateRecords | redirect/accountmanager.py:120 | a success records exactly those records as updated |
| AccountManager.RecordsDns.DeleteRecords | redirect/accountmanager.py:139 | a success records exactly those records as deleted |
| AccountManager.ActivationMail.constructor | redirect/accountmanager.py:7 | the mailer has sent nothing |
| AccountManager.ActivationMail.Send | redirect/accountmanager.py:45 | a success records exactly that (name, email, token) mail |
| AccountManager.RedirectUsername | redirect/accountmanager.py:57-60 | the host with its last len(domain) + 1 characters cut: for a host under the domain, the name in front of "." + domain; for a host no longer than that, "" |
| AccountManager.DeviceUrl | redirect/accountmanager.py:65-69 | the address of a device starts with "http://device." + name + "." |
| AccountManager.Manager.constructor | redirect/accountmanager.py:6-12 | the manager keeps its database, DNS updater, mailer, domain and token-by-mail setting |
| AccountManager.Manager.RequestAccount | redirect/accountmanager.py:14-53 | validation messages are a 400; a known user is a 409 (or the lookup's exception escapes) and changes nothing; an unknown user with no messages gets only a 200 or a 500 (or the exception); a 200 inserted exactly the new account, with the remote address standing in for a missing port, and mailed the token or put it in the Token header; a failure after the lookup is a 500 "Unable to create user: " |
| AccountManager.Manager.RedirectUrl | redirect/accountmanager.py:55-69 | the device address when the user's port is known and its lookup succeeds, the default address otherwise |
| AccountManager.Manager.Activate | redirect/accountmanager.py:71-85 | validation messages are a 400; an unactivatable token is "Not valid token" (or a 500) and changes nothing; an activatable token gets only a 200 or a 500; 200 exactly when the token was activated and the user's records were created |
| AccountManager.Manager.Update | redirect/accountmanager.py:103-127 | validation messages are a 400; an unknown token is "Not valid token"; unchanged ip and port are a 304 that changes nothing; otherwise a 200 updated the records and then the database with the new ip and port, the remote address standing in for a missing port; a failure is a 500 |
| AccountManager.Manager.Token | redirect/accountmanager.py:87-101 | validation messages are a 400; a wrong name or password is a 400; a valid user gets only a 200 or a 500; 200 exactly when the user is valid, with the token in the Token header; a failure is a 500 |
| AccountManager.Manager.Delete | redirect/accountmanager.py:129-145 | validation messages and a wrong name or password are a 400 that changes nothing; a 200 deleted the user's records and then the user, under the name the database returned with the user's info; a failure is a 500 "Unable to update: " without a database change |
| AccountManager.RedirectForRegisteredUser | redirect/accountmanager.py:57-60 | "user.example.com" under "example.com" gives "user" |
| AccountManager.DeviceUrlExample | redirect/accountmanager.py:65-69 | user "user" on port 80 gets "http://device.user.example.com:80/owncloud" |
| AccountManager.UsernameByLengthOnly | redirect/accountmanager.py:60 | the name is cut by length alone: a host under another domain of the same length still yields a name, and the bare domain yields "" |
| AccountManager.InvalidListsMessages | redirect/accountmanager.py:19-20 | two messages are listed separated by ", " |
| UserCleaner.CleanerState.constructor | backend/user/cleaner_state.go:18-23 | a fresh state file holds user id 0 |
| UserCleaner.Remover.constructor | backend/user/cleaner.go:31-33 | the domain remover has removed nothing |
| UserCleaner.PayPalChecker.constructor | backend/user/cleaner.go:35-37 | the checker answers with the given subscription status |
| UserCleaner.Cleaner.constructor | backend/user/cleaner.go:49-66 | the cleaner keeps its database, state, mailer, remover and checker |
| DnsCleaner.DomainRemover.constructor | backend/dns/cleaner.go:17-19 | the remover has removed nothing |
| DnsCleaner.Cleaner.constructor | backend/dns/cleaner.go:36-43 | the cleaner keeps its database, remover and mailer |
| Users.PayPalSubscriptions.constructor | backend/service/users.go:40-42 | the client has cancelled nothing |
| LegacyService.LegacyDns.constructor | backend/service/service.go:17-19 | the DNS side has accepted no updates |
| LegacyService.Service.constructor | backend/service/service.go:17-19 | the service keeps its database, DNS side and domain |

## Left out

- SQL, ORM and connection handling: the Go database is a set of maps keyed by id in `Store.Db`, and every query can fail nondeterministically with a database error. The Python database is `AccountManager.AccountDb`: fixed answer functions for its queries plus logs of the changes it was asked to make, each of which can fail.
- Store.Db.GetUser: returns the whole stored row. The SQL of backend/db/mysql.go:61-73 reads eight columns only (id, email, hash, active, update token, notification flag, timestamp, subscription id), so status, status instant, subscription type and registration instant come back as Go zero values; the same holds for Store.Db.GetUserByEmail.
- Store.Db.InsertUser: stores the whole row. The SQL of backend/db/mysql.go:92-120 writes six columns (email, hash, active, update token, notification flag, timestamp) and no subscription or status column.
- Store.Db.UpdateUser: overwrites the whole row. The SQL of backend/db/mysql.go:122-154 writes seven columns, stamps `timestamp` with the wall clock instead of the row's value, and writes no status, status instant, subscription type or registration instant; with this SQL the cleaner's status transitions would not persist, which the model does not reproduce.
- Store.Db.InsertDomain: stores the row with its name as given. The SQL of backend/db/mysql.go:453-485 lower-cases the name and writes eight columns (name, update token, owner, MAC address, device name and title, last update, hosted zone id).
- Store.Db.UpdateDomain: overwrites the whole row. The SQL of backend/db/mysql.go:402-451 lower-cases the name and does not write the hosted zone id.
- Auto-increment ids: an inserted row gets a fresh key of the model's choosing. As in the Go code, the new id is not copied back: UpsertAction and DomainAcquire return an inserted action or domain with id 0, and the stored row is a ghost output.
- Status and registration instants of a freshly inserted user start at 0, as the zero value of the Go struct does; wall-clock time is an input instant (seconds), and every "d days" is d * 86400 seconds.
- Calendar arithmetic: the dns cleaner's one-month cutoff (AddDate) is an input instant.
- Certbot.Certbot.Present: requires a token some domain holds, because the source reads the found domain's name without a nil check and would panic otherwise; the same holds for Certbot.Certbot.CleanUp and Certbot.Certbot.DomainOfToken.
- DnsCleaner.Cleaner.Clean: requires every domain's owner to be stored, because the source dereferences the owner it loads without a nil check; LegacyService.Service.Update and LegacyService.Service.GetDomain require the same for the same reason.
- DomainModel.DomainAvailabilityRequest.IsFree: requires the requested domain to be set, because the source dereferences it.
- Go panics: WriteHeader with a status outside 100..999 sets the writer's aborted flag instead of unwinding the handler; nil dereferences are excluded by the preconditions listed here.
- Certbot interface arity: certbot.go calls the DNS side with a single value and route53.go's CreateCertbotRecord takes a list of values; the model gives the certbot service a DNS interface of its own that records (zone, name, value) calls.
- SelectDomainByToken and amazonDns.UpdateDomain are not defined in the source files of this model; their effects are stated through the recording DNS interfaces.
- Route 53 itself (commit, CreateHostedZone, GetHostedZone, DeleteHostedZone, NoSuchHostedZone detection): recorded lists of change batches, and nondeterministic outcomes.
- Route53.SplitBy: requires a chunk width of at least 1; with width 0 the Go code panics on `i%n` (integer division by zero) for any text longer than one character, and returns the text whole otherwise; a negative width acts as its absolute value, because Go's `%` takes the sign of the dividend, so `i%n == 0` exactly when `|n|` divides `i`, and the slices `s[:i]`, `s[i:]` use the counter `i`, never `n`.
- PayPal, SMTP and the Python mailer: recorded lists of requests with nondeterministic failures; the user remover and the PayPal checker of the user cleaner are a log and a fixed answer, and the DNS cleaner's domain remover is a log: the database keeps a domain it removed.
- Unordered map iteration: the order of ToParametersMessages and of ParseBody's substitutions is chosen by the model; ParseBody returns the order it used as a ghost output.
- JSON marshalling failures in the success and failure responses of rest/common.go.
- Rest.ResponseWriter.Success: the body is the abstract success response. The source writes the JSON through `fmt.Fprintf` as a format string (backend/rest/common.go:62), so a '%' in the returned data is rewritten by fmt and the client gets text that is not that JSON; this rewriting is not modelled, and Rest.ResponseWriter.Handle inherits the gap on its success path.
- Actions.Actions.GetActionOfType: an unknown token gets the corrected 400 service error (Actions.UnknownToken). The source builds a ServiceError literal with StatusCode 0 (backend/service/actions.go:38 and 49), so Actions.Actions.GetActivateAction and Actions.Actions.GetPasswordAction return status 0 as written; the as-written error and its consequence are stated by Actions.UnknownTokenAsWritten and Rest.UnknownTokenAsWrittenGetsNoResponse (see Findings).
- HandleUser (backend/rest/common.go:85-94) wraps its handler exactly as Handle does, which Rest.ResponseWriter.Handle models; the user it is given comes from the session plumbing.
- time.Sleep, the cleaners' Start methods (the enabled flag, the goroutine loop and the 60-second pause), metrics, statsd and logging.
- The user cleaner's cursor file is a cell holding a user id that reads 0 when unset; its read and write failures are not modelled.
- The notification tool's sent file is a list of lines; a scanner read error is a nondeterministic failure, and an address containing a newline is not separated from the others.
- The SQL LIKE filter that picks release-notification recipients is an input predicate over users.
- Users.Save, GetUserByEmail and GetUserByUpdateToken (backend/service/users.go:111-121) are plain database pass-throughs: Save is `Store.Db.UpdateUser`, GetUserByEmail is `Store.Db.GetUserByEmail`, and the update-token lookup is not part of this model.
- Store.Db.GetDomainTokenUpdatedBefore: a NULL update token on the chosen row, which makes the Go scan fail, is covered only by the nondeterministic database failure.
- Foreign primitives: SHA-256 hashing, IP parsing (net.ParseIP) and inet_aton are function parameters, IPv4 and IPv6 disjoint by construction; UUID tokens are fresh inputs.
- Regular expressions are explicit character predicates; `\w`, isdigit and lower-casing are ASCII only.
- Route53.SplitBy: cuts the text by characters, where the Go code indexes and slices UTF-8 bytes (backend/dns/route53.go:236-247); the two agree on ASCII text such as a base64 DKIM key, and Route53.SplitBySpec shares the gap.
- Errors.NewServiceError: Error() is the message as given. The source builds it with `fmt.Errorf(message)` (backend/model/service_error.go:15), which reads the message as a format string, so a '%' in it would be rewritten; no message the services pass contains one.
- Errors.NewServiceErrorWithCode: the same `fmt.Errorf` format-string reading (backend/model/service_error.go:19) is not modelled.
- accountmanager.py calls validate_create and validate_update with one argument while validation.py declares two (the parameters and the remote address); the account manager takes the validator's result as an input.
- The Python database answers, urlparse's netloc and redirect/dns.py's boto calls are inputs or recorded calls; Python values are modelled as typed options.
- AccountManager.Manager.RequestAccount: the existence check runs outside the try block, so its exception escapes; the model returns it as a raised exception rather than a 500.
- Port probing, the frontend, the HTTP routing and session handling, the command-line tools other than the notification filter, and the end-to-end suites are not part of this model.

## Findings

| source | as written | input that shows it | evidently intended | confidence | as-written member | corrected member |
|---|---|---|---|---|---|---|
| backend/service/actions.go:37-50 | an unknown activation or password token gets a ServiceError literal whose StatusCode is left at 0, which ErrorToResponse passes to WriteHeader | UserSetPassword with a token no password action holds, through /user/set_password (backend/rest/www.go:337); /user/activate replaces Activate's error with "invalid request" (backend/rest/www.go:295-298), so it does not show the defect | status 400, as NewServiceError gives | not executed | Rest.UnknownTokenAsWrittenGetsNoResponse | Rest.UnknownTokenIsBadRequest |
