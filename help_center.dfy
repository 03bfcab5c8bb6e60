/** POST /api/help-center/contact: the required-field check, the e-mail
    pattern `^[^\s@]+@[^\s@]+\.[^\s@]+$`, the normalised contact data and the
    two e-mails it sends, the notification to the team before the
    confirmation to the sender. Sending mail is a parameter: whether each
    send succeeds. */
module HelpCenter {
  import opened Common

  /** A character the pattern's `[^\s@]` accepts. */
  predicate Plain(c: char) {
    !IsSpace(c) && c != '@'
  }

  /** The pattern as a regular expression reads: `local@host.tld`, three
      non-empty runs of plain characters, the '.' being any dot of the part
      after '@'. */
  ghost predicate MatchesPattern(s: string) {
    exists p, k :: 0 < p && p + 1 < k && k + 1 < |s| && s[p] == '@' && s[k] == '.'
                   && forall i :: 0 <= i < |s| && i != p ==> Plain(s[i])
  }

  /** The index of the first '@'. */
  function FirstAt(s: string): (r: Option<nat>)
    ensures r.Some? ==> r.value < |s| && s[r.value] == '@' && forall i :: 0 <= i < r.value ==> s[i] != '@'
    ensures r.None? ==> forall i :: 0 <= i < |s| ==> s[i] != '@'
  {
    if s == [] then None
    else if s[0] == '@' then Some(0)
    else match FirstAt(s[1..])
      case None => None
      case Some(p) => Some(p + 1)
  }

  /** The check in words: no white space, exactly one '@' and not first, and a
      '.' after it that is neither the first nor the last character of the
      part after '@'. */
  predicate ValidEmail(s: string)
    ensures ValidEmail(s) ==> 5 <= |s| && s[0] != '@' && s[|s| - 1] != '@'
  {
    match FirstAt(s)
    case None => false
    case Some(p) =>
      p > 0
      && (forall i :: 0 <= i < |s| ==> !IsSpace(s[i]))
      && (forall i :: p < i < |s| ==> s[i] != '@')
      && exists k :: p + 1 < k < |s| - 1 && s[k] == '.'
  }

  /** The check in words accepts exactly what the pattern matches. */
  lemma ValidEmailIsPattern(s: string)
    ensures ValidEmail(s) <==> MatchesPattern(s)
  {
    if ValidEmail(s) {
      var p := FirstAt(s).value;
      var k :| p + 1 < k < |s| - 1 && s[k] == '.';
      assert forall i :: 0 <= i < |s| && i != p ==> Plain(s[i]);
      assert 0 < p && p + 1 < k && k + 1 < |s| && s[p] == '@' && s[k] == '.';
    }
    if MatchesPattern(s) {
      var p, k :| 0 < p && p + 1 < k && k + 1 < |s| && s[p] == '@' && s[k] == '.'
                  && forall i :: 0 <= i < |s| && i != p ==> Plain(s[i]);
      assert FirstAt(s) == Some(p) by {
        var q := FirstAt(s);
        assert q.Some? by { assert s[p] == '@'; }
        assert q.value == p;
      }
      assert p + 1 < k < |s| - 1 && s[k] == '.';
    }
  }

  /** An ordinary address passes. */
  lemma EmailAccepted()
    ensures ValidEmail("a@b.c")
  {
    var e := "a@b.c";
    assert FirstAt(e) == Some(1);
    assert forall i :: 0 <= i < |e| ==> e[i] in "a@b.c";
    assert e[3] == '.';
  }

  /** A dot right after '@' or at the very end is not enough, and a second
      '@' is refused. */
  lemma EmailRefused()
    ensures !ValidEmail("a@b.")
    ensures !ValidEmail("a@.b")
    ensures !ValidEmail("a@b@c.d")
  {
    assert FirstAt("a@b.") == Some(1);
    assert FirstAt("a@.b") == Some(1);
    assert FirstAt("a@b@c.d") == Some(1);
    assert "a@b@c.d"[3] == '@';
  }

  /** The data both e-mails receive. */
  datatype ContactData = ContactData(name: string, email: string, subject: string, message: string, category: Value)

  /** The two e-mails, in the order they are sent. */
  datatype Mail = ToTeam(data: ContactData) | ToSender(data: ContactData)

  datatype ContactReply = ContactReply(status: nat, success: bool, message: string, sent: seq<Mail>)

  const AllRequired := ContactReply(400, false, "All fields are required", [])
  const InvalidEmail := ContactReply(400, false, "Please provide a valid email address", [])
  const SendFailed := "Sorry, there was an error sending your message. Please try again or contact us directly."
  const Sent := "Your message has been sent successfully. We'll get back to you within a few hours."

  /** `contactData`: the text fields trimmed, the e-mail also lower-cased,
      the category as given. */
  function Normalise(name: string, email: string, subject: string, message: string, category: Value): (d: ContactData)
    ensures d.email == ToLower(Trim(email)) && d.category == category
    ensures d.name == Trim(name) && d.subject == Trim(subject) && d.message == Trim(message)
  {
    ContactData(Trim(name), ToLower(Trim(email)), Trim(subject), Trim(message), category)
  }

  /** POST /contact. `teamMailOk` and `senderMailOk` say whether each send
      succeeds; a field that is not a string makes `trim` throw, a 500. */
  function Contact(name: Value, email: Value, subject: Value, message: Value, category: Value,
                   teamMailOk: bool, senderMailOk: bool): (r: ContactReply)
    ensures r.status == 400 <==> !Truthy(name) || !Truthy(email) || !Truthy(subject) || !Truthy(message) || !Truthy(category)
                                 || !email.Str? || !ValidEmail(email.s)
    ensures r.status == 400 ==> r.sent == []
    ensures r.success <==> r.status == 200
  {
    if !Truthy(name) || !Truthy(email) || !Truthy(subject) || !Truthy(message) || !Truthy(category) then AllRequired
    else if !email.Str? || !ValidEmail(email.s) then InvalidEmail
    else if !name.Str? || !subject.Str? || !message.Str? then ContactReply(500, false, SendFailed, [])
    else
      var data := Normalise(name.s, email.s, subject.s, message.s, category);
      if !teamMailOk then ContactReply(500, false, SendFailed, [ToTeam(data)])
      else if !senderMailOk then ContactReply(500, false, SendFailed, [ToTeam(data), ToSender(data)])
      else ContactReply(200, true, Sent, [ToTeam(data), ToSender(data)])
  }

  /** The mails: the team's first, the sender's second with the same data, and 200 only when both went out. */
  lemma ContactMailOrder(name: Value, email: Value, subject: Value, message: Value, category: Value,
                         teamMailOk: bool, senderMailOk: bool)
    ensures var r := Contact(name, email, subject, message, category, teamMailOk, senderMailOk);
            (r.sent != [] ==> r.sent[0].ToTeam?)
            && (|r.sent| == 2 ==> r.sent[1].ToSender? && r.sent[0].data == r.sent[1].data && teamMailOk)
            && (r.status == 200 <==> r.status != 400 && name.Str? && subject.Str? && message.Str? && teamMailOk && senderMailOk)
            && (r.sent != [] ==> r.sent[0].data.email == ToLower(Trim(email.s)) && ValidEmail(email.s))
  {
  }
}
