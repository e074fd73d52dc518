/**
 * The admin handlers of `controllers/admin.controller.js` that decide
 * something: changing a user's role, and editing another user's profile
 * with the checks of the profile handler (required fields, duplicates
 * among the other users, social-link rules).
 */
module Admin {
  import opened Common
  import opened Users
  import opened Accounts

  predicate KnownRole(role: string)
  {
    role == "user" || role == "admin"
  }

  /** `adminChangeUserRole` on the users: 400 for a missing or unknown role,
      404 for an unknown user, 400 when the user already has the role, else
      200 with only the role changed. */
  function RoleChange(users: map<Id, User>, userId: Id, role: Option<string>): (r: (nat, map<Id, User>))
    ensures r.0 == 200 || r.0 == 400 || r.0 == 404
    ensures r.0 != 200 ==> r.1 == users
    ensures r.0 == 200 <==> role.Some? && KnownRole(role.value) && userId in users && users[userId].role != role.value
    ensures r.0 == 200 ==> r.1 == users[userId := users[userId].(role := role.value)]
  {
    if !Truthy(role) || !KnownRole(role.value) then (400, users)
    else if userId !in users then (404, users)
    else if users[userId].role == role.value then (400, users)
    else (200, users[userId := users[userId].(role := role.value)])
  }

  /** Repeating a role change that succeeded is refused and changes nothing. */
  lemma RepeatedRoleChangeRefused(users: map<Id, User>, userId: Id, role: Option<string>)
    requires RoleChange(users, userId, role).0 == 200
    ensures var after := RoleChange(users, userId, role).1;
      RoleChange(after, userId, role) == (400, after)
  {
  }

  /** The edit form of `adminUpdateUserProfile`; it has no `bio`. */
  datatype AdminForm = AdminForm(username: Option<string>, email: Option<string>, phone: Option<string>,
                                 gender: Option<string>, socialLinks: Option<seq<(string, string)>>)

  function AsProfile(f: AdminForm): ProfileForm
  {
    ProfileForm(f.username, f.email, f.phone, f.gender, None, f.socialLinks)
  }

  /** The admin edit refuses a link exactly when the profile rules do: a
      non-empty link that does not parse, is not https, or (outside
      `website`) whose host lacks `<platform>.com`. */
  lemma AdminLinkRules(docs: seq<(Id, User)>, userId: Id, f: AdminForm, parse: string -> ParsedUrl)
    requires Truthy(f.username) && Truthy(f.email) && Truthy(f.phone)
    requires DuplicateOf(docs, Some(userId), f.email.value, f.phone.value).None?
    ensures ProfileCheck(docs, userId, AsProfile(f), parse) == Refused(403) <==>
            exists i :: 0 <= i < |Links(AsProfile(f))|
                        && !LinkAccepted(Links(AsProfile(f))[i].0, Links(AsProfile(f))[i].1, parse)
  {
  }

  class AdminDesk {
    var users: map<Id, User>

    constructor (initial: map<Id, User>)
      ensures users == initial
    {
      users := initial;
    }

    /** `adminChangeUserRole`, saving the user `RoleChange` describes. */
    method ChangeUserRole(userId: Id, role: Option<string>) returns (status: nat)
      modifies this
      ensures (status, users) == RoleChange(old(users), userId, role)
    {
      if !Truthy(role) || !KnownRole(role.value) {
        return 400;
      }
      if userId !in users {
        return 404;
      }
      var u := users[userId];
      if u.role == role.value {
        return 400;
      }
      users := users[userId := u.(role := role.value)];
      return 200;
    }

    /** `adminUpdateUserProfile` for user `userId`, with `docs` the collection
        in natural order: 400 without username, email or phone; 400 naming the
        field when another user holds the email or phone; 403 for a refused
        social link; 404 for an unknown user; else 200 and the fields written. */
    method UpdateUserProfile(userId: Id, f: AdminForm, docs: seq<(Id, User)>, parse: string -> ParsedUrl)
      returns (status: nat, duplicateField: Option<string>)
      requires InNaturalOrder(docs, users)
      modifies this
      ensures status != 200 ==> users == old(users)
      ensures var v := ProfileCheck(docs, userId, AsProfile(f), parse);
              (v.Refused? ==> status == v.status && duplicateField.None?)
              && (v.Duplicate? ==> status == 400 && duplicateField == Some(v.field))
              && (v.Accepted? && userId !in old(users) ==> status == 404)
              && (v.Accepted? && userId in old(users) ==>
                    status == 200 && users == old(users)[userId := ProfileApplied(old(users)[userId], AsProfile(f))])
    {
      var form := AsProfile(f);
      var v := ProfileCheck(docs, userId, form, parse);
      if v.Refused? {
        return v.status, None;
      }
      if v.Duplicate? {
        return 400, Some(v.field);
      }
      if userId !in users {
        return 404, None;
      }
      users := users[userId := ProfileApplied(users[userId], form)];
      return 200, None;
    }
  }
}
