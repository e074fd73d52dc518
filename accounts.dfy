/**
 * The account handlers of `controllers/user.controller.js`: registration's
 * input checks, one-time-code verification (`verifyOtpForUser` and
 * `verifyEmail`), changing the password, and the profile update with its
 * rule for social links. Password hashing and comparison, `Number(otp)`,
 * `new URL(...)`, `Date.now()` and token generation are parameters.
 */
module Accounts {
  import opened Common
  import opened Users

  // ---------------------------------------------------------- registration

  datatype Registration = Registration(
    username: Option<string>, email: Option<string>, phone: Option<string>,
    password: Option<string>, gender: Option<string>)

  /** Outcome of the checks before `User.create`: refused with a status, a
      clash with an existing user on the named field, or accepted. */
  datatype Verdict = Refused(status: nat) | Duplicate(field: string) | Accepted

  /** A field the required-fields check lets through: present and not only white space. */
  predicate Filled(s: Option<string>)
  {
    s.Some? && s.value != "" && Trim(s.value) != ""
  }

  const MinPasswordLength := 8

  /** The field checks of `registerUser`: every required field filled and a
      password of at least 8 characters. */
  predicate FieldsPass(r: Registration)
  {
    Filled(r.username) && Filled(r.email) && Filled(r.phone) && Filled(r.password)
    && |r.password.value| >= MinPasswordLength
  }

  /** `registerUser` up to the creation of the document: every required
      field filled, a password of at least 8 characters, and no existing
      user with the same email or phone. */
  function RegisterCheck(docs: seq<(Id, User)>, r: Registration): (v: Verdict)
    ensures v == Refused(400) <==>
              !(Filled(r.username) && Filled(r.email) && Filled(r.phone) && Filled(r.password))
              || |r.password.value| < MinPasswordLength
    ensures v.Accepted? ==>
              forall i :: 0 <= i < |docs| ==> docs[i].1.email != r.email.value && docs[i].1.phone != r.phone.value
    ensures v.Duplicate? ==> exists i :: 0 <= i < |docs| && (docs[i].1.email == r.email.value || docs[i].1.phone == r.phone.value)
    ensures v.Duplicate? ==> Some(v.field) == DuplicateOf(docs, None, r.email.value, r.phone.value)
    ensures v == Accepted <==>
              FieldsPass(r) && DuplicateOf(docs, None, r.email.value, r.phone.value).None?
    ensures v.Duplicate? <==>
              FieldsPass(r) && DuplicateOf(docs, None, r.email.value, r.phone.value).Some?
  {
    if !FieldsPass(r) then Refused(400)
    else
      var dup := DuplicateOf(docs, None, r.email.value, r.phone.value);
      if dup.Some? then
        assert !forall i :: 0 <= i < |docs| ==> !Clashes(docs[i], None, r.email.value, r.phone.value);
        Duplicate(dup.value)
      else Accepted
  }

  /** A field made of white space alone counts as missing. */
  lemma BlankFieldRefused(docs: seq<(Id, User)>, r: Registration)
    requires r.email.Some? && AllSpace(r.email.value)
    ensures RegisterCheck(docs, r) == Refused(400)
  {
  }

  /** The gender stored for a new user: the one given, or `"not specified"`. */
  function RegisteredGender(r: Registration): (g: string)
    ensures Truthy(r.gender) ==> g == r.gender.value
    ensures !Truthy(r.gender) ==> g == "not specified"
  {
    OrElse(r.gender, "not specified")
  }

  // ------------------------------------------------------- one-time codes

  /** The stored code matches: present, not zero (a falsy number) and equal to `Number(otp)`. */
  predicate CodeMatches(u: User, otpNumber: Option<int>)
  {
    u.verificationCode.Some? && u.verificationCode.value != 0
    && otpNumber.Some? && u.verificationCode.value == otpNumber.value
  }

  /** `verificationCodeExpire < Date.now()`; an absent expiry compares false. */
  predicate Expired(u: User, now: int)
  {
    u.verificationCodeExpire.Some? && u.verificationCodeExpire.value < now
  }

  /** A user whose code has been used: verified, with no code and no expiry. */
  predicate CodeConsumed(u: User)
  {
    u.isVerified && u.verificationCode.None? && u.verificationCodeExpire.None?
  }

  /** The user's state after a successful code check; `refreshToken` is only
      replaced by `verifyOtpForUser`. */
  function Verified(u: User, refreshToken: Option<string>): (v: User)
    ensures CodeConsumed(v)
    ensures refreshToken.None? ==> v.refreshToken == u.refreshToken
    ensures refreshToken.Some? ==> v.refreshToken == refreshToken
    ensures v.(isVerified := u.isVerified, verificationCode := u.verificationCode,
               verificationCodeExpire := u.verificationCodeExpire, refreshToken := u.refreshToken) == u
  {
    u.(isVerified := true, verificationCode := None, verificationCodeExpire := None,
       refreshToken := if refreshToken.Some? then refreshToken else u.refreshToken)
  }

  /** A consumed code cannot be used a second time. */
  lemma CodeWorksOnce(u: User, otpNumber: Option<int>, token: Option<string>)
    ensures !CodeMatches(Verified(u, token), otpNumber)
  {
  }

  // ------------------------------------------------------------ social links

  /** The profile rule for one `[platform, url]` entry of `social_links`: an
      empty URL is skipped; any other must parse, use `https:`, and, unless
      the platform is `"website"`, have a host name containing `<platform>.com`. */
  predicate LinkAccepted(platform: string, url: string, parse: string -> ParsedUrl)
  {
    url == ""
    || (parse(url).Url?
        && parse(url).protocol == "https:"
        && (platform == "website" || Contains(parse(url).hostname, platform + ".com")))
  }

  /** The `forEach` over all entries: one refused entry refuses them all. */
  function LinksAccepted(links: seq<(string, string)>, parse: string -> ParsedUrl): (ok: bool)
    ensures ok <==> forall i :: 0 <= i < |links| ==> LinkAccepted(links[i].0, links[i].1, parse)
  {
    if links == [] then true
    else
      assert forall i :: 1 <= i < |links| ==> links[i] == links[1..][i - 1];
      LinkAccepted(links[0].0, links[0].1, parse) && LinksAccepted(links[1..], parse)
  }

  /** A plain-http profile link is refused whatever the platform. */
  lemma HttpLinkRefused(platform: string, url: string, parse: string -> ParsedUrl)
    requires url != "" && parse(url).Url? && parse(url).protocol == "http:"
    ensures !LinkAccepted(platform, url, parse)
  {
  }

  /** An `https:` link passes for a platform whenever `<platform>.com`
      occurs anywhere in its host name: a subdomain such as
      `gist.github.com` passes for `github`, and so does a host that merely
      embeds the name, such as `github.com.example.org`. */
  lemma SubdomainAccepted(platform: string, url: string, before: string, after: string, parse: string -> ParsedUrl)
    requires parse(url) == Url("https:", before + platform + ".com" + after)
    ensures LinkAccepted(platform, url, parse)
  {
    var host := before + platform + ".com" + after;
    assert host[|before|..|before| + |platform + ".com"|] == platform + ".com";
    assert OccursAt(host, platform + ".com", |before|);
  }

  // --------------------------------------------------------- profile update

  datatype ProfileForm = ProfileForm(
    username: Option<string>, email: Option<string>, phone: Option<string>,
    gender: Option<string>, bio: Option<string>, socialLinks: Option<seq<(string, string)>>)

  /** The checks of `updateUserProfile` for user `self`: 400 without a
      username, email or phone; a clash with another user on email or phone;
      403 when a social link is refused. */
  function ProfileCheck(docs: seq<(Id, User)>, self: Id, f: ProfileForm, parse: string -> ParsedUrl): (v: Verdict)
    ensures v == Refused(400) <==> !(Truthy(f.username) && Truthy(f.email) && Truthy(f.phone))
    ensures v.Duplicate? <==>
              (Truthy(f.username) && Truthy(f.email) && Truthy(f.phone)
               && exists i :: 0 <= i < |docs| && Clashes(docs[i], Some(self), f.email.value, f.phone.value))
    ensures v == Refused(403) <==>
              (Truthy(f.username) && Truthy(f.email) && Truthy(f.phone)
               && DuplicateOf(docs, Some(self), f.email.value, f.phone.value).None?
               && !LinksAccepted(Links(f), parse))
    ensures v.Accepted? ==> LinksAccepted(Links(f), parse)
    ensures v == Accepted <==>
              Truthy(f.username) && Truthy(f.email) && Truthy(f.phone)
              && DuplicateOf(docs, Some(self), f.email.value, f.phone.value).None?
              && LinksAccepted(Links(f), parse)
    ensures v.Duplicate? ==> Some(v.field) == DuplicateOf(docs, Some(self), f.email.value, f.phone.value)
  {
    if !(Truthy(f.username) && Truthy(f.email) && Truthy(f.phone)) then Refused(400)
    else
      var dup := DuplicateOf(docs, Some(self), f.email.value, f.phone.value);
      if dup.Some? then Duplicate(dup.value)
      else if !LinksAccepted(Links(f), parse) then Refused(403)
      else Accepted
  }

  /** `social_links` defaults to `{}`. */
  function Links(f: ProfileForm): seq<(string, string)>
  {
    if f.socialLinks.Some? then f.socialLinks.value else []
  }

  /** The record `findByIdAndUpdate` stores. An undefined gender or bio is
      left out of the update, so the stored value stays. */
  function ProfileApplied(u: User, f: ProfileForm): (v: User)
    requires Truthy(f.username) && Truthy(f.email) && Truthy(f.phone)
    ensures v.username == f.username.value && v.email == f.email.value && v.phone == f.phone.value
    ensures v.socialLinks == Links(f)
    ensures f.gender.Some? ==> v.gender == f.gender.value
    ensures f.gender.None? ==> v.gender == u.gender
    ensures f.bio.Some? ==> v.bio == f.bio.value
    ensures f.bio.None? ==> v.bio == u.bio
    ensures v.password == u.password && v.role == u.role && v.following == u.following && v.followers == u.followers
    ensures v.(username := u.username, email := u.email, phone := u.phone,
               gender := u.gender, bio := u.bio, socialLinks := u.socialLinks) == u
  {
    u.(username := f.username.value, email := f.email.value, phone := f.phone.value,
       gender := if f.gender.Some? then f.gender.value else u.gender,
       bio := if f.bio.Some? then f.bio.value else u.bio,
       socialLinks := Links(f))
  }

  class AccountStore {
    var users: map<Id, User>

    constructor (initial: map<Id, User>)
      ensures users == initial
    {
      users := initial;
    }

    /** Emails are unique in the collection (the schema's unique index). */
    ghost predicate UniqueEmails()
      reads this
    {
      forall a, b :: a in users && b in users && users[a].email == users[b].email ==> a == b
    }

    /** `findOne({ email })`. */
    method FindByEmail(email: string) returns (found: Option<Id>)
      requires UniqueEmails()
      ensures found.Some? ==> found.value in users && users[found.value].email == email
      ensures found.None? ==> forall id :: id in users ==> users[id].email != email
    {
      var rest := users.Keys;
      while rest != {}
        invariant rest <= users.Keys
        invariant forall id :: id in users.Keys - rest ==> users[id].email != email
        decreases rest
      {
        var id :| id in rest;
        if users[id].email == email {
          return Some(id);
        }
        rest := rest - {id};
      }
      return None;
    }

    /** `verifyOtpForUser`: 400 without an email, without a code, for an
        unknown email, for a wrong code, or for an expired one; otherwise the
        user is verified, the code is cleared and the refresh token stored. */
    method VerifyOtpForUser(email: Option<string>, otp: Option<string>, now: int,
                            toNumber: string -> Option<int>, refreshToken: string)
      returns (status: nat, who: Option<Id>)
      requires UniqueEmails()
      modifies this
      ensures UniqueEmails()
      ensures status == 200 || status == 400
      ensures status == 400 ==> users == old(users)
      ensures status == 200 <==>
                Truthy(email) && Truthy(otp) &&
                exists id :: id in old(users) && old(users)[id].email == email.value
                  && CodeMatches(old(users)[id], toNumber(otp.value)) && !Expired(old(users)[id], now)
      ensures status == 200 ==>
                (who.Some? && who.value in old(users)
                 && old(users)[who.value].email == email.value
                 && users == old(users)[who.value := Verified(old(users)[who.value], Some(refreshToken))])
    {
      who := None;
      if !Truthy(email) {
        return 400, None;
      }
      if !Truthy(otp) {
        return 400, None;
      }
      var found := FindByEmail(email.value);
      if found.None? {
        return 400, None;
      }
      var id := found.value;
      var u := users[id];
      if !CodeMatches(u, toNumber(otp.value)) {
        return 400, None;
      }
      if Expired(u, now) {
        return 400, None;
      }
      users := users[id := Verified(u, Some(refreshToken))];
      return 200, Some(id);
    }

    /** `verifyEmail` for the signed-in user: 400 without a code, 404 for an
        unknown user, 400 when already verified, for a wrong code, or for an
        expired one; otherwise the user is verified and the code cleared. */
    method VerifyEmail(userId: Id, otp: Option<string>, now: int, toNumber: string -> Option<int>)
      returns (status: nat)
      modifies this
      ensures !Truthy(otp) ==> status == 400 && users == old(users)
      ensures Truthy(otp) && userId !in old(users) ==> status == 404 && users == old(users)
      ensures Truthy(otp) && userId in old(users) ==>
                var u := old(users)[userId];
                if u.isVerified || !CodeMatches(u, toNumber(otp.value)) || Expired(u, now)
                then status == 400 && users == old(users)
                else status == 200 && users == old(users)[userId := Verified(u, None)]
    {
      if !Truthy(otp) {
        return 400;
      }
      if userId !in users {
        return 404;
      }
      var u := users[userId];
      if u.isVerified {
        return 400;
      }
      if !CodeMatches(u, toNumber(otp.value)) {
        return 400;
      }
      if Expired(u, now) {
        return 400;
      }
      users := users[userId := Verified(u, None)];
      return 200;
    }

    /** `changeCurrentPassword`: 400 unless all three fields are given, 400
        for a new password under 8 characters, 500 when the signed-in user is
        gone (`user.isPasswordCorrect` on null), 401 for a wrong current
        password, 401 when the confirmation differs; otherwise the password
        is replaced (the pre-save hook that hashes it is not modelled). */
    method ChangeCurrentPassword(userId: Id, current: Option<string>, newPassword: Option<string>,
                                 confirm: Option<string>, passwordMatches: (string, string) -> bool)
      returns (status: nat)
      modifies this
      ensures status != 200 ==> users == old(users)
      ensures status == 400 <==> !(Truthy(current) && Truthy(newPassword) && Truthy(confirm))
                                 || |newPassword.value| < MinPasswordLength
      ensures status == 200 <==>
                Truthy(current) && Truthy(newPassword) && Truthy(confirm) && |newPassword.value| >= MinPasswordLength
                && userId in old(users) && passwordMatches(old(users)[userId].password, current.value)
                && newPassword.value == confirm.value
      ensures status == 200 ==> users == old(users)[userId := old(users)[userId].(password := newPassword.value)]
    {
      if !Truthy(current) || !Truthy(newPassword) || !Truthy(confirm) {
        return 400;
      }
      if |newPassword.value| < MinPasswordLength {
        return 400;
      }
      if userId !in users {
        return 500;
      }
      var u := users[userId];
      if !passwordMatches(u.password, current.value) {
        return 401;
      }
      if newPassword.value != confirm.value {
        return 401;
      }
      users := users[userId := u.(password := newPassword.value)];
      return 200;
    }

    /** `updateUserProfile` for the signed-in user, with `docs` the collection
        in natural order: the checks of `ProfileCheck`, then 404 when the user
        is gone, otherwise the fields are written. */
    method UpdateUserProfile(userId: Id, f: ProfileForm, docs: seq<(Id, User)>, parse: string -> ParsedUrl)
      returns (status: nat, duplicateField: Option<string>)
      requires InNaturalOrder(docs, users)
      modifies this
      ensures status != 200 ==> users == old(users)
      ensures var v := ProfileCheck(docs, userId, f, parse);
              (v.Refused? ==> status == v.status && duplicateField.None?)
              && (v.Duplicate? ==> status == 400 && duplicateField == Some(v.field))
              && (v.Accepted? && userId !in old(users) ==> status == 404)
              && (v.Accepted? && userId in old(users) ==>
                    status == 200 && users == old(users)[userId := ProfileApplied(old(users)[userId], f)])
    {
      var v := ProfileCheck(docs, userId, f, parse);
      if v.Refused? {
        return v.status, None;
      }
      if v.Duplicate? {
        return 400, Some(v.field);
      }
      if userId !in users {
        return 404, None;
      }
      users := users[userId := ProfileApplied(users[userId], f)];
      return 200, None;
    }
  }

  /** The own record never blocks a profile update: with no other user
      holding the email or phone, the duplicate check passes. */
  lemma OwnRecordIsNoDuplicate(docs: seq<(Id, User)>, users: map<Id, User>, self: Id, f: ProfileForm,
                               parse: string -> ParsedUrl)
    requires InNaturalOrder(docs, users)
    requires Truthy(f.username) && Truthy(f.email) && Truthy(f.phone)
    requires forall id :: id in users && id != self ==> users[id].email != f.email.value && users[id].phone != f.phone.value
    ensures !ProfileCheck(docs, self, f, parse).Duplicate?
  {
    DuplicateIffTaken(docs, users, Some(self), f.email.value, f.phone.value);
  }
}
