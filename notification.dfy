// The release-notification tool (backend/cmd/notification/main.go): mail a
// release announcement to every matching user who wants notifications and
// has not been sent one yet, and record each address that was mailed in the
// sent file, one per line, so a later run retries only the failures.

module Notification {
  import opened Basics
  import opened Errors
  import opened UserModel
  import opened MailService
  import opened Store

  /** unicode.IsSpace, the white space strings.TrimSpace removes. */
  predicate IsSpace(c: char) {
    c == ' ' || c == '\t' || c == '\n' || c == '\r' || c as int == 0x0B || c as int == 0x0C ||
    c as int == 0x85 || c as int == 0xA0 || c as int == 0x1680 || 0x2000 <= c as int <= 0x200A ||
    c as int == 0x2028 || c as int == 0x2029 || c as int == 0x202F || c as int == 0x205F || c as int == 0x3000
  }

  /** A line that TrimSpace reduces to "". */
  predicate Blank(line: string) {
    forall i :: 0 <= i < |line| ==> IsSpace(line[i])
  }

  /** The addresses a sent file records: its non-blank lines. */
  function Recorded(lines: seq<string>): (r: set<string>)
    ensures forall l :: l in r <==> l in lines && !Blank(l)
  {
    if |lines| == 0 then {}
    else
      var last := lines[|lines| - 1];
      assert lines == lines[..|lines| - 1] + [last];
      Recorded(lines[..|lines| - 1]) + (if Blank(last) then {} else {last})
  }

  /** The addresses a run mails, in the order of the users: those with
    * notifications enabled whose address is not in `sent`. A user listed
    * twice is mailed twice, since `sent` is not updated during the run. */
  function Eligible(users: seq<UserRow>, sent: set<string>): (r: seq<string>)
    ensures |r| <= |users|
  {
    if |users| == 0 then []
    else
      var u := users[0];
      (if u.notificationEnabled && u.email !in sent then [u.email] else []) + Eligible(users[1..], sent)
  }

  /** The addresses of `emails` whose send succeeded (`ok`), in order. */
  function Delivered(emails: seq<string>, ok: seq<bool>): (r: seq<string>)
    requires |emails| == |ok|
    ensures |r| <= |emails|
  {
    if |emails| == 0 then []
    else
      Delivered(emails[..|emails| - 1], ok[..|ok| - 1]) + (if ok[|ok| - 1] then [emails[|emails| - 1]] else [])
  }

  /** The announcements mailed to `emails`, in order. */
  function Announcements(emails: seq<string>): seq<Notice>
  {
    seq(|emails|, i requires 0 <= i < |emails| => ReleaseAnnouncement(emails[i]))
  }

  /** The users query. The SQL filter is not modelled: `select` is the
    * answer the database gives for a field and a pattern. */
  class UserSource {
    const select: (string, string) -> seq<UserRow>

    constructor (select: (string, string) -> seq<UserRow>)
      ensures this.select == select
    {
      this.select := select;
    }

    method GetUsersByField(field: string, value: string) returns (r: Result<seq<UserRow>, Error>)
      ensures r.Ok? ==> r.value == select(field, value)
    {
      if * { return Err(DbFailure); }
      return Ok(select(field, value));
    }
  }

  /** The sent file: whether it exists, and the lines it holds. */
  class SentFile {
    var present: bool
    var lines: seq<string>

    ghost predicate Valid()
      reads this
    {
      !present ==> lines == []
    }

    constructor (present: bool, lines: seq<string>)
      requires !present ==> lines == []
      ensures Valid() && this.present == present && this.lines == lines
    {
      this.present, this.lines := present, lines;
    }

    /** Open for appending, creating the file when it is missing. */
    method OpenForAppend() returns (err: Option<Error>)
      requires Valid()
      modifies this
      ensures Valid() && lines == old(lines)
      ensures err.None? ==> present
      ensures err.Some? ==> present == old(present)
    {
      if * { return Some(Failure("unable to open sent file")); }
      present := true;
      return None;
    }

    /** Write one line. */
    method AppendLine(line: string) returns (err: Option<Error>)
      requires Valid() && present
      modifies this
      ensures Valid() && present
      ensures err.None? ==> lines == old(lines) + [line]
      ensures err.Some? ==> lines == old(lines)
    {
      if * { return Some(Failure("unable to write sent file")); }
      lines := lines + [line];
      return None;
    }
  }

  class Notification {
    const users: UserSource
    const mail: Mail
    const file: SentFile
    const sqlEmailFilter: string

    constructor (users: UserSource, mail: Mail, file: SentFile, sqlEmailFilter: string)
      ensures this.users == users && this.mail == mail && this.file == file && this.sqlEmailFilter == sqlEmailFilter
    {
      this.users, this.mail, this.file, this.sqlEmailFilter := users, mail, file, sqlEmailFilter;
    }

    /** The addresses already sent to: every non-blank line of the sent
      * file; nothing when the file is missing or cannot be read through. */
    method LoadSentEmails() returns (sent: set<string>)
      ensures !file.present ==> sent == {}
      ensures sent == {} || sent == Recorded(file.lines)
    {
      if !file.present {
        return {};
      }
      var lines := file.lines;
      sent := {};
      var i := 0;
      while i < |lines|
        invariant 0 <= i <= |lines|
        invariant sent == Recorded(lines[..i])
      {
        assert lines[..i + 1][..i] == lines[..i];
        if !Blank(lines[i]) {
          sent := sent + {lines[i]};
        }
        i := i + 1;
      }
      assert lines[..|lines|] == lines;
      if * {
        // the scanner stopped on a read error
        return {};
      }
    }

    /** Send: one pass over the matching users. `attempted` are the
      * addresses mailed, `ok` which of those sends succeeded, `recorded` the
      * lines added to the sent file; `finished` says the pass ran to the end
      * (it stops early only when the sent file cannot be written). */
    method Send() returns (ghost sent: set<string>, ghost found: Option<seq<UserRow>>,
                           ghost attempted: seq<string>, ghost ok: seq<bool>,
                           ghost recorded: seq<string>, ghost finished: bool)
      requires file.Valid()
      modifies mail, file
      ensures file.Valid()
      ensures sent == {} || sent == Recorded(old(file.lines))
      ensures found.Some? ==> found.value == users.select("email", sqlEmailFilter)
      ensures found.None? ==> attempted == [] && !finished
      ensures |attempted| == |ok| && |attempted| <= |Eligible(users.select("email", sqlEmailFilter), sent)|
      ensures attempted == Eligible(users.select("email", sqlEmailFilter), sent)[..|attempted|]
      ensures finished ==> attempted == Eligible(users.select("email", sqlEmailFilter), sent)
      ensures mail.notices == old(mail.notices) + Announcements(Delivered(attempted, ok))
      ensures file.lines == old(file.lines) + recorded
      ensures recorded == Delivered(attempted, ok) ||
              (!finished && |attempted| > 0 && recorded + [attempted[|attempted| - 1]] == Delivered(attempted, ok))
    {
      attempted, ok, recorded, finished, found := [], [], [], false, None;
      var loaded := LoadSentEmails();
      sent := loaded;
      var result := users.GetUsersByField("email", sqlEmailFilter);
      if result.Err? {
        return;
      }
      found := Some(result.value);
      var openErr := file.OpenForAppend();
      if openErr.Some? {
        return;
      }
      attempted, ok, recorded, finished := Announce(result.value, loaded);
    }

    /** The loop of Send over the users `list`, with the sent file open. */
    method Announce(list: seq<UserRow>, sent: set<string>)
      returns (ghost attempted: seq<string>, ghost ok: seq<bool>, ghost recorded: seq<string>, ghost finished: bool)
      requires file.Valid() && file.present
      modifies mail, file
      ensures file.Valid()
      ensures |attempted| == |ok| && |attempted| <= |Eligible(list, sent)|
      ensures attempted == Eligible(list, sent)[..|attempted|]
      ensures finished ==> attempted == Eligible(list, sent)
      ensures mail.notices == old(mail.notices) + Announcements(Delivered(attempted, ok))
      ensures file.lines == old(file.lines) + recorded
      ensures recorded == Delivered(attempted, ok) ||
              (!finished && |attempted| > 0 && recorded + [attempted[|attempted| - 1]] == Delivered(attempted, ok))
    {
      attempted, ok, recorded := [], [], [];
      ghost var notices0, lines0 := mail.notices, file.lines;
      var i := 0;
      var stop := false;
      while i < |list| && !stop
        invariant 0 <= i <= |list|
        invariant attempted == Eligible(list[..i], sent)
        invariant file.Valid() && file.present
        invariant Progress(mail.notices, file.lines, notices0, lines0, attempted, ok, recorded, stop)
      {
        var user := list[i];
        if user.notificationEnabled && user.email !in sent {
          attempted, ok, recorded, stop := Attempt(user.email, notices0, lines0, attempted, ok, recorded);
        }
        EligibleStep(list, i, sent);
        i := i + 1;
      }
      PassEnd(list, i, sent, attempted, !stop);
      finished := !stop;
    }

    /** One eligible address of Announce's loop, with the bookkeeping. */
    method Attempt(email: string, ghost notices0: seq<Notice>, ghost lines0: seq<string>,
                   ghost attempted: seq<string>, ghost ok: seq<bool>, ghost recorded: seq<string>)
      returns (ghost attempted': seq<string>, ghost ok': seq<bool>, ghost recorded': seq<string>, stop: bool)
      requires file.Valid() && file.present
      requires Progress(mail.notices, file.lines, notices0, lines0, attempted, ok, recorded, false)
      modifies mail, file
      ensures file.Valid() && file.present
      ensures attempted' == attempted + [email]
      ensures Progress(mail.notices, file.lines, notices0, lines0, attempted', ok', recorded', stop)
    {
      var delivered, unwritten := AnnounceTo(email);
      DeliveredStep(attempted, ok, email, delivered);
      AnnouncementsStep(Delivered(attempted, ok), email);
      attempted', ok' := attempted + [email], ok + [delivered];
      stop := unwritten;
      recorded' := if delivered && !unwritten then recorded + [email] else recorded;
    }

    /** One address of the loop: mail it and, when that succeeded, record it.
      * `unwritten` says the mail went out but the sent file refused the line. */
    method AnnounceTo(email: string) returns (delivered: bool, unwritten: bool)
      requires file.Valid() && file.present
      modifies mail, file
      ensures file.Valid() && file.present
      ensures unwritten ==> delivered
      ensures mail.notices == old(mail.notices) + (if delivered then [ReleaseAnnouncement(email)] else [])
      ensures file.lines == old(file.lines) + (if delivered && !unwritten then [email] else [])
    {
      var err := mail.Send(ReleaseAnnouncement(email));
      if err.Some? {
        return false, false;
      }
      var written := file.AppendLine(email);
      return true, written.Some?;
    }
  }

  // ------------------------------------------------------------------ lemmas

  /** Announcements are made address by address. */
  lemma AnnouncementsStep(emails: seq<string>, e: string)
    ensures Announcements(emails + [e]) == Announcements(emails) + [ReleaseAnnouncement(e)]
  {
  }

  /** One more user extends the eligible list by that user's address or by nothing. */
  lemma EligibleStep(users: seq<UserRow>, i: nat, sent: set<string>)
    requires i < |users|
    ensures Eligible(users[..i + 1], sent) ==
      Eligible(users[..i], sent) + (if users[i].notificationEnabled && users[i].email !in sent then [users[i].email] else [])
  {
    EligibleAppend(users[..i], [users[i]], sent);
    assert users[..i] + [users[i]] == users[..i + 1];
  }

  /** The eligible addresses are those of the users with notifications
    * enabled whose address is not in `sent`. */
  lemma {:induction false} EligibleMembers(users: seq<UserRow>, sent: set<string>, e: string)
    ensures e in Eligible(users, sent) <==>
            exists u :: u in users && u.notificationEnabled && u.email !in sent && u.email == e
  {
    if |users| > 0 {
      EligibleMembers(users[1..], sent, e);
      assert forall v :: v in users <==> v == users[0] || v in users[1..];
    }
  }

  /** Eligibility is decided user by user. */
  lemma {:induction false} EligibleAppend(a: seq<UserRow>, b: seq<UserRow>, sent: set<string>)
    ensures Eligible(a + b, sent) == Eligible(a, sent) + Eligible(b, sent)
  {
    if |a| == 0 {
      assert a + b == b;
    } else {
      assert (a + b)[0] == a[0];
      assert (a + b)[1..] == a[1..] + b;
      EligibleAppend(a[1..], b, sent);
    }
  }

  /** What the loop of Announce keeps: every attempted address is announced
    * when its send succeeded, and the sent file gained the recorded ones,
    * which are all the delivered ones unless the pass stopped on the last
    * attempt. */
  ghost predicate Progress(notices: seq<Notice>, lines: seq<string>, notices0: seq<Notice>, lines0: seq<string>,
                           attempted: seq<string>, ok: seq<bool>, recorded: seq<string>, stop: bool)
  {
    |attempted| == |ok| &&
    notices == notices0 + Announcements(Delivered(attempted, ok)) &&
    lines == lines0 + recorded &&
    (!stop ==> recorded == Delivered(attempted, ok)) &&
    (stop ==> |attempted| > 0 && recorded + [attempted[|attempted| - 1]] == Delivered(attempted, ok))
  }

  /** Where a pass over `users` that reached `i` leaves the attempted addresses. */
  lemma PassEnd(users: seq<UserRow>, i: nat, sent: set<string>, attempted: seq<string>, finished: bool)
    requires i <= |users| && attempted == Eligible(users[..i], sent)
    requires finished ==> i == |users|
    ensures |attempted| <= |Eligible(users, sent)| && attempted == Eligible(users, sent)[..|attempted|]
    ensures finished ==> attempted == Eligible(users, sent)
  {
    EligiblePrefix(users, i, sent);
    if finished {
      assert users[..i] == users;
    }
  }

  /** The addresses mailed over the first users are a prefix of those of the whole list. */
  lemma EligiblePrefix(users: seq<UserRow>, i: nat, sent: set<string>)
    requires i <= |users|
    ensures |Eligible(users[..i], sent)| <= |Eligible(users, sent)|
    ensures Eligible(users[..i], sent) == Eligible(users, sent)[..|Eligible(users[..i], sent)|]
  {
    EligibleAppend(users[..i], users[i..], sent);
    assert users[..i] + users[i..] == users;
  }

  /** One more send extends the delivered list by its address when it succeeded. */
  lemma DeliveredStep(emails: seq<string>, ok: seq<bool>, e: string, b: bool)
    requires |emails| == |ok|
    ensures Delivered(emails + [e], ok + [b]) == Delivered(emails, ok) + (if b then [e] else [])
  {
    assert (emails + [e])[..|emails|] == emails;
    assert (ok + [b])[..|ok|] == ok;
  }

  /** Exactly the successful sends are delivered. */
  lemma {:induction false} DeliveredIffSucceeded(emails: seq<string>, ok: seq<bool>, e: string)
    requires |emails| == |ok|
    ensures e in Delivered(emails, ok) <==> exists i :: 0 <= i < |emails| && ok[i] && emails[i] == e
  {
    if |emails| > 0 {
      var n := |emails| - 1;
      DeliveredIffSucceeded(emails[..n], ok[..n], e);
      assert forall i :: 0 <= i < n ==> emails[..n][i] == emails[i] && ok[..n][i] == ok[i];
    }
  }

  /** Appending lines to the sent file adds their non-blank addresses. */
  lemma {:induction false} RecordedAppend(lines: seq<string>, more: seq<string>)
    ensures Recorded(lines + more) == Recorded(lines) + Recorded(more)
  {
    if |more| > 0 {
      var n := |more| - 1;
      RecordedAppend(lines, more[..n]);
      assert (lines + more)[..|lines + more| - 1] == lines + more[..n];
    }
  }

  /** The retry property, for a run that read `lines` and recorded every
    * delivered address: on the next run an address whose send failed (and
    * that no other send delivered) is mailed again, and a delivered,
    * non-blank address is not. */
  lemma OnlyFailuresRetried(users: seq<UserRow>, lines: seq<string>, ok: seq<bool>, i: nat)
    requires |ok| == |Eligible(users, Recorded(lines))|
    requires i < |ok|
    ensures var attempted := Eligible(users, Recorded(lines));
            var next := Recorded(lines + Delivered(attempted, ok));
            (!ok[i] && attempted[i] !in Delivered(attempted, ok) ==> attempted[i] in Eligible(users, next)) &&
            (ok[i] && !Blank(attempted[i]) ==> attempted[i] !in Eligible(users, next))
  {
    var attempted := Eligible(users, Recorded(lines));
    var delivered := Delivered(attempted, ok);
    RecordedAppend(lines, delivered);
    var e := attempted[i];
    var next := Recorded(lines + delivered);
    EligibleMembers(users, Recorded(lines), e);
    EligibleMembers(users, next, e);
    if ok[i] {
      DeliveredIffSucceeded(attempted, ok, e);
    }
    assert e in attempted;
  }
}
