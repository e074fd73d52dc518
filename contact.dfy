/**
 * The contact form of `controllers/contact.controller.js`: the checks run in
 * order (required fields, e-mail shape, message length), then a message to
 * the admins and a confirmation to the sender go out. Sending is a
 * parameter: whether both sends succeed.
 */
module Contact {
  import opened Common

  datatype ContactForm = ContactForm(name: Option<string>, email: Option<string>, subject: Option<string>,
                                     category: Option<string>, message: Option<string>)

  datatype Refusal = MissingField | BadEmail | ShortMessage

  /** What the handler answers: 400 with the first failed check, 500 when
      sending fails, or 200 with the admin mail's subject and category. */
  datatype Outcome = Refused(why: Refusal) | SendFailed | Sent(adminSubject: string, category: string)

  /** No white space and no `@` at positions `a` up to `b`. */
  predicate Plain(s: string, a: int, b: int)
  {
    forall k :: a <= k < b && 0 <= k < |s| ==> !IsSpace(s[k]) && s[k] != '@'
  }

  /** `/^[^\s@]+@[^\s@]+\.[^\s@]+$/.test(s)`: three non-empty runs of
      characters other than white space and `@`, joined by `@` and `.`. */
  predicate MatchesEmailPattern(s: string)
  {
    exists i, j :: 0 < i && i + 1 < j && j + 1 < |s| && s[i] == '@' && s[j] == '.'
                   && Plain(s, 0, i) && Plain(s, i + 1, j) && Plain(s, j + 1, |s|)
  }

  /** The shape in words: `local@domain` with exactly one `@`, no white
      space, and a dot in the domain that is neither its first nor its last character. */
  predicate EmailShape(s: string)
  {
    (forall k :: 0 <= k < |s| ==> !IsSpace(s[k]))
    && exists i :: 0 < i < |s| && s[i] == '@' && (forall k :: 0 <= k < |s| && k != i ==> s[k] != '@')
                   && exists j :: i + 1 < j < |s| - 1 && s[j] == '.'
  }

  /** Every string the pattern accepts has that shape. */
  lemma PatternGivesShape(s: string)
    requires MatchesEmailPattern(s)
    ensures EmailShape(s)
  {
    var i, j :| 0 < i && i + 1 < j && j + 1 < |s| && s[i] == '@' && s[j] == '.'
                && Plain(s, 0, i) && Plain(s, i + 1, j) && Plain(s, j + 1, |s|);
    assert !IsSpace('@') && !IsSpace('.');
    forall k | 0 <= k < |s| ensures !IsSpace(s[k]) && (k != i ==> s[k] != '@') {
      if k < i {
        assert Plain(s, 0, i);
      } else if i < k < j {
        assert Plain(s, i + 1, j);
      } else if j < k {
        assert Plain(s, j + 1, |s|);
      }
    }
    assert i + 1 < j < |s| - 1 && s[j] == '.';
  }

  /** Every string of that shape is accepted by the pattern. */
  lemma ShapeGivesPattern(s: string)
    requires EmailShape(s)
    ensures MatchesEmailPattern(s)
  {
    var i :| 0 < i < |s| && s[i] == '@' && (forall k :: 0 <= k < |s| && k != i ==> s[k] != '@')
             && exists j :: i + 1 < j < |s| - 1 && s[j] == '.';
    var j :| i + 1 < j < |s| - 1 && s[j] == '.';
    assert Plain(s, 0, i) && Plain(s, i + 1, j) && Plain(s, j + 1, |s|);
  }

  /** The pattern accepts exactly the strings of that shape. */
  lemma PatternIsShape(s: string)
    ensures MatchesEmailPattern(s) <==> EmailShape(s)
  {
    if MatchesEmailPattern(s) {
      PatternGivesShape(s);
    }
    if EmailShape(s) {
      ShapeGivesPattern(s);
    }
  }

  /** A sample: the pattern lets a second dot and a dotted local part through. */
  lemma DottedAddressAccepted()
    ensures MatchesEmailPattern("a.b@c.d.e")
  {
    var s := "a.b@c.d.e";
    assert s[3] == '@' && s[5] == '.';
    assert Plain(s, 0, 3) && Plain(s, 4, 5) && Plain(s, 6, |s|);
  }

  /** `sendContactMessage`. */
  function SendContactMessage(f: ContactForm, sendOk: bool): (o: Outcome)
    ensures o == Refused(MissingField) <==>
              !(Truthy(f.name) && Truthy(f.email) && Truthy(f.subject) && Truthy(f.message))
    ensures o == Refused(BadEmail) <==>
              Truthy(f.name) && Truthy(f.email) && Truthy(f.subject) && Truthy(f.message)
              && !EmailShape(f.email.value)
    ensures o == Refused(ShortMessage) <==>
              Truthy(f.name) && Truthy(f.email) && Truthy(f.subject) && Truthy(f.message)
              && EmailShape(f.email.value) && |f.message.value| < 10
    ensures o.Sent? || o.SendFailed? ==> EmailShape(f.email.value) && |f.message.value| >= 10
    ensures (Truthy(f.name) && Truthy(f.email) && Truthy(f.subject) && Truthy(f.message)
             && EmailShape(f.email.value) && |f.message.value| >= 10) ==>
              (o.Sent? <==> sendOk) && (o.SendFailed? <==> !sendOk)
    ensures o.Sent? ==> sendOk && o.adminSubject == "Contact Form: " + f.subject.value
                        && o.category == (if Truthy(f.category) then f.category.value else "General")
  {
    if !(Truthy(f.name) && Truthy(f.email) && Truthy(f.subject) && Truthy(f.message)) then Refused(MissingField)
    else
      PatternIsShape(f.email.value);
      if !MatchesEmailPattern(f.email.value) then Refused(BadEmail)
      else if |f.message.value| < 10 then Refused(ShortMessage)
      else if !sendOk then SendFailed
      else Sent("Contact Form: " + f.subject.value, if Truthy(f.category) then f.category.value else "General")
  }
}
