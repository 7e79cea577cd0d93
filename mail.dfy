// Outgoing mail: the notices the services send, the template each one uses
// and who receives it, template substitution and parsing, and the device
// log report. Files on disk are a map from path to contents; the SMTP
// server may refuse any message.

module MailService {
  import opened Basics
  import opened Errors

  /** The notices the services send, one per Send* method of the mailer. */
  datatype Notice =
    | ResetPassword(to: string, token: string)
    | SetPassword(to: string)
    | Activate(to: string, token: string)
    | PlanSubscribed(to: string)
    | PlanUnSubscribed(to: string)
    | ReleaseAnnouncement(to: string)
    | DnsClean(to: string, userDomain: string)
    | Trial(to: string)
    | AccountLockSoon(to: string)
    | AccountLocked(to: string)
    | AccountRemoved(to: string)

  /** A template file, its substitutions and the recipients. */
  datatype Template = Template(path: string, substitution: map<string, string>, recipients: seq<string>)

  /** A message handed to the SMTP server. */
  datatype Message = Message(from: string, contentType: string, body: string, subject: string, to: seq<string>)

  const LogsSubject := "Device error report"
  const LogsThanks := "Thank you for sharing Syncloud device error info, Syncloud support will get back to you shortly.\n"
  const LogsMoreDetails := "If you need to add more details just reply to this email.\n\n"

  // ------------------------------------------------------------ templates

  /** The text after replacing every "{k}" with its value, key by key in `order`. */
  function Substitute(template: string, order: seq<string>, substitution: map<string, string>): string
    requires forall i :: 0 <= i < |order| ==> order[i] in substitution
    decreases |order|
  {
    if |order| == 0 then template
    else Substitute(ReplaceAll(template, "{" + order[0] + "}", substitution[order[0]]), order[1..], substitution)
  }

  /** The subject (first line without any "Subject: ") and the body (after
    * the first newline); a text with no newline cannot be parsed. */
  function SplitTemplate(text: string): (r: Result<(string, string), Error>)
    ensures r.Err? <==> !Contains(text, "\n")
    ensures r.Err? ==> r.error == Failure("cannot parse template")
    ensures r.Ok? ==> exists line :: text == line + "\n" + r.value.1 && !Contains(line, "\n") &&
                                     r.value.0 == ReplaceAll(line, "Subject: ", "")
  {
    match Index(text, "\n")
    case None => Err(Failure("cannot parse template"))
    case Some(i) =>
      var line := text[..i];
      assert text == line + "\n" + text[i + 1..] by {
        assert text[i..i + 1] == "\n";
      }
      assert !Contains(line, "\n") by {
        forall k | 0 <= k <= |line| - 1
          ensures !OccursAt(line, "\n", k)
        {
          assert !OccursAt(text, "\n", k);
          assert text[k..k + 1] == line[k..k + 1];
        }
      }
      Ok((ReplaceAll(line, "Subject: ", ""), text[i + 1..]))
  }

  /** Substitution leaves a text without placeholders alone, whatever the order. */
  lemma {:induction false} SubstituteWithoutPlaceholders(template: string, order: seq<string>, substitution: map<string, string>)
    requires forall i :: 0 <= i < |order| ==> order[i] in substitution
    requires forall k :: k in substitution ==> !Contains(template, "{" + k + "}")
    ensures Substitute(template, order, substitution) == template
    decreases |order|
  {
    if |order| > 0 {
      ReplaceAllAbsent(template, "{" + order[0] + "}", substitution[order[0]]);
      SubstituteWithoutPlaceholders(template, order[1..], substitution);
    }
  }

  /** ParseBody: substitute every key (Go's map order is unspecified, so the
    * order is returned as a ghost witness), then split off the subject. */
  method ParseBody(template: string, substitution: map<string, string>)
    returns (r: Result<(string, string), Error>, ghost order: seq<string>)
    ensures |order| == |substitution.Keys|
    ensures forall i :: 0 <= i < |order| ==> order[i] in substitution
    ensures forall i, j :: 0 <= i < j < |order| ==> order[i] != order[j]
    ensures r == SplitTemplate(Substitute(template, order, substitution))
    ensures (forall k :: k in substitution ==> !Contains(template, "{" + k + "}")) ==> r == SplitTemplate(template)
    ensures r.Err? ==> r.error == Failure("cannot parse template")
  {
    var text := template;
    var pending := substitution.Keys;
    order := [];
    while pending != {}
      invariant pending <= substitution.Keys
      invariant forall i :: 0 <= i < |order| ==> order[i] in substitution && order[i] !in pending
      invariant forall i, j :: 0 <= i < j < |order| ==> order[i] != order[j]
      invariant |order| + |pending| == |substitution.Keys|
      invariant Substitute(template, order, substitution) == text
      decreases |pending|
    {
      var k :| k in pending;
      SubstituteAppend(template, order, k, substitution);
      text := ReplaceAll(text, "{" + k + "}", substitution[k]);
      order := order + [k];
      pending := pending - {k};
    }
    if forall k :: k in substitution ==> !Contains(template, "{" + k + "}") {
      SubstituteWithoutPlaceholders(template, order, substitution);
    }
    r := SplitTemplate(text);
  }

  lemma {:induction false} SubstituteAppend(template: string, order: seq<string>, k: string, substitution: map<string, string>)
    requires forall i :: 0 <= i < |order| ==> order[i] in substitution
    requires k in substitution
    ensures Substitute(template, order + [k], substitution) ==
            ReplaceAll(Substitute(template, order, substitution), "{" + k + "}", substitution[k])
    decreases |order|
  {
    if |order| > 0 {
      assert (order + [k])[1..] == order[1..] + [k];
      SubstituteAppend(ReplaceAll(template, "{" + order[0] + "}", substitution[order[0]]), order[1..], k, substitution);
    }
  }

  /** With an empty substitution map the template is only split. */
  lemma ParseBodyEmptyMap(template: string, order: seq<string>)
    requires |order| == 0
    ensures Substitute(template, order, map[]) == template
  {
  }

  /** A text cut at its first newline splits into that line's subject and the rest. */
  lemma SplitAtFirstNewline(text: string, line: string, body: string)
    requires text == line + "\n" + body
    requires !Contains(line, "\n")
    ensures SplitTemplate(text) == Ok((ReplaceAll(line, "Subject: ", ""), body))
  {
    assert OccursAt(text, "\n", |line|) by { assert text[|line|..|line| + 1] == "\n"; }
    forall k | 0 <= k < |line|
      ensures !OccursAt(text, "\n", k)
    {
      assert !OccursAt(line, "\n", k);
      assert text[k..k + 1] == line[k..k + 1];
    }
    var i := Index(text, "\n");
    assert i == Some(|line|);
    assert text[..|line|] == line && text[|line| + 1..] == body;
  }

  /** The shape of the unit-test templates: a "Subject: " line whose subject
    * has no capital S and no newline yields that subject and the rest as body. */
  lemma SubjectLineTemplate(subject: string, body: string)
    requires forall i :: 0 <= i < |subject| ==> subject[i] != 'S' && subject[i] != '\n'
    ensures SplitTemplate("Subject: " + subject + "\n" + body) == Ok((subject, body))
  {
    var line := "Subject: " + subject;
    forall i | 0 <= i < |line|
      ensures line[i] != "\n"[0]
    {
      if i >= 9 { assert line[i] == subject[i - 9]; }
    }
    AbsentFirstChar(line, "\n");
    AbsentFirstChar(subject, "Subject: ");
    ReplaceAllAbsent(subject, "Subject: ", "");
    ReplaceAllLeading("Subject: ", subject, "");
    SplitAtFirstNewline(line + "\n" + body, line, body);
    assert "Subject: " + subject + "\n" + body == line + "\n" + body;
    assert "" + subject == subject;
    assert ReplaceAll(line, "Subject: ", "") == subject;
  }

  // ------------------------------------------------------------ the mailer

  class Mail {
    const mailPath: string
    const from: string
    const deviceErrorTo: string
    const mainDomain: string
    /** The readable files and their contents. */
    const files: map<string, string>
    /** Notices delivered so far. */
    var notices: seq<Notice>
    /** Messages the SMTP server accepted so far. */
    var outbox: seq<Message>

    constructor (mailPath: string, from: string, deviceErrorTo: string, mainDomain: string, files: map<string, string>)
      ensures this.mailPath == mailPath && this.from == from && this.deviceErrorTo == deviceErrorTo
      ensures this.mainDomain == mainDomain && this.files == files
      ensures notices == [] && outbox == []
    {
      this.mailPath, this.from, this.deviceErrorTo := mailPath, from, deviceErrorTo;
      this.mainDomain, this.files := mainDomain, files;
      notices, outbox := [], [];
    }

    /** The template, substitutions and recipients of each notice: activation,
      * plan, dns-clean and account-lifecycle mails copy the device-error
      * address, reset-password, set-password and release mails do not. */
    function TemplateOf(n: Notice): (t: Template)
      ensures t.recipients == if n.ResetPassword? || n.SetPassword? || n.ReleaseAnnouncement? then [n.to]
                              else [n.to, deviceErrorTo]
      ensures n.ResetPassword? || n.Activate? ==> t.substitution == map["token" := n.token, "domain" := mainDomain]
      ensures n.PlanSubscribed? || n.PlanUnSubscribed? || n.ReleaseAnnouncement? ==> t.substitution == map["domain" := mainDomain]
      ensures n.DnsClean? ==> t.substitution == map["main_domain" := mainDomain, "user_domain" := n.userDomain]
      ensures n.Trial? || n.AccountLockSoon? || n.AccountLocked? || n.AccountRemoved? ==>
                t.substitution == map["main_domain" := mainDomain]
      ensures n.SetPassword? ==> t.substitution == map[]
    {
      match n
      case ResetPassword(to, token) =>
        Template(mailPath + "/reset_password.txt", map["token" := token, "domain" := mainDomain], [to])
      case SetPassword(to) => Template(mailPath + "/set_password.txt", map[], [to])
      case Activate(to, token) =>
        Template(mailPath + "/activate.txt", map["token" := token, "domain" := mainDomain], [to, deviceErrorTo])
      case PlanSubscribed(to) => Template(mailPath + "/plan_subscribe.txt", map["domain" := mainDomain], [to, deviceErrorTo])
      case PlanUnSubscribed(to) => Template(mailPath + "/plan_unsubscribe.txt", map["domain" := mainDomain], [to, deviceErrorTo])
      case ReleaseAnnouncement(to) => Template(mailPath + "/release_announcement.txt", map["domain" := mainDomain], [to])
      case DnsClean(to, userDomain) =>
        Template(mailPath + "/dns_clean.txt", map["main_domain" := mainDomain, "user_domain" := userDomain], [to, deviceErrorTo])
      case Trial(to) => Template(mailPath + "/subscription_trial.txt", map["main_domain" := mainDomain], [to, deviceErrorTo])
      case AccountLockSoon(to) => Template(mailPath + "/account_lock_soon.txt", map["main_domain" := mainDomain], [to, deviceErrorTo])
      case AccountLocked(to) => Template(mailPath + "/account_locked.txt", map["main_domain" := mainDomain], [to, deviceErrorTo])
      case AccountRemoved(to) => Template(mailPath + "/account_removed.txt", map["main_domain" := mainDomain], [to, deviceErrorTo])
    }

    /** SendNotification: read the template, parse it, hand it to SMTP. A
      * missing file or an unparsable template sends nothing. */
    method SendNotification(template: string, substitution: map<string, string>, to: seq<string>)
      returns (err: Option<Error>, ghost order: seq<string>)
      modifies this
      ensures notices == old(notices)
      ensures template !in files ==> err.Some?
      ensures template in files ==>
        (|order| == |substitution.Keys| && (forall i :: 0 <= i < |order| ==> order[i] in substitution) &&
         (forall i, j :: 0 <= i < j < |order| ==> order[i] != order[j]))
      ensures template in files && SplitTemplate(Substitute(files[template], order, substitution)).Err? ==> err.Some?
      ensures err.Some? ==> outbox == old(outbox) && err.value.Failure?
      ensures err.None? ==>
        (template in files &&
         var parsed := SplitTemplate(Substitute(files[template], order, substitution));
         parsed.Ok? && outbox == old(outbox) + [Message(from, "text/plain", parsed.value.1, parsed.value.0, to)])
    {
      order := [];
      if template !in files {
        return Some(Failure("unable to read email template")), order;
      }
      var parsed;
      parsed, order := ParseBody(files[template], substitution);
      if parsed.Err? {
        return Some(parsed.error), order;
      }
      var (subject, body) := parsed.value;
      if * {
        return Some(Failure("unable to send email")), order;
      }
      outbox := outbox + [Message(from, "text/plain", body, subject, to)];
      return None, order;
    }

    /** `m` is what SendNotification sends for template `t` when the keys of
      * its substitution are replaced in `order`, each key once. */
    ghost predicate Renders(m: Message, t: Template, order: seq<string>)
    {
      t.path in files &&
      |order| == |t.substitution.Keys| && (forall i :: 0 <= i < |order| ==> order[i] in t.substitution) &&
      (forall i, j :: 0 <= i < j < |order| ==> order[i] != order[j]) &&
      var parsed := SplitTemplate(Substitute(files[t.path], order, t.substitution));
      parsed.Ok? && m == Message(from, "text/plain", parsed.value.1, parsed.value.0, t.recipients)
    }

    /** Every Send* method: deliver notice `n` through its template. The one
      * message sent is the template with the notice's substitutions, in some
      * order of the keys. */
    method Send(n: Notice) returns (err: Option<Error>)
      modifies this
      ensures err.None? ==>
        (notices == old(notices) + [n] && TemplateOf(n).path in files &&
         |outbox| == |old(outbox)| + 1 && outbox[..|old(outbox)|] == old(outbox) &&
         outbox[|old(outbox)|].to == TemplateOf(n).recipients && outbox[|old(outbox)|].from == from &&
         exists order :: Renders(outbox[|old(outbox)|], TemplateOf(n), order))
      ensures err.Some? ==> notices == old(notices) && outbox == old(outbox) && err.value.Failure?
    {
      var t := TemplateOf(n);
      ghost var order;
      err, order := SendNotification(t.path, t.substitution, t.recipients);
      if err.None? {
        assert Renders(outbox[|old(outbox)|], t, order);
        notices := notices + [n];
      }
    }

    /** SendLogs: the fixed preamble and the data, to the user and, on request,
      * to the device-error address. */
    method SendLogs(to: string, data: string, includeSupport: bool) returns (err: Option<Error>)
      modifies this
      ensures notices == old(notices)
      ensures err.None? ==>
        outbox == old(outbox) + [Message(from, "text/plain", LogsThanks + LogsMoreDetails + data, LogsSubject,
                                         if includeSupport then [to, deviceErrorTo] else [to])]
      ensures err.Some? ==> outbox == old(outbox)
    {
      var body := LogsThanks;
      body := body + LogsMoreDetails;
      body := body + data;
      assert body == LogsThanks + LogsMoreDetails + data;
      var recipients := [to];
      if includeSupport {
        recipients := recipients + [deviceErrorTo];
      }
      assert recipients == if includeSupport then [to, deviceErrorTo] else [to];
      if * {
        return Some(Failure("unable to send email"));
      }
      outbox := outbox + [Message(from, "text/plain", body, "Device error report", recipients)];
      return None;
    }
  }
}
