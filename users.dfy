/**
 * The user document the controllers read and write (its schema file is not
 * part of this model; the fields are the ones the controllers use), and the
 * collection-wide query `findOne({ _id: { $ne: self }, $or: [{ email }, { phone }] })`
 * that the registration and profile handlers use to refuse duplicates.
 */
module Users {
  import opened Common

  datatype User = User(
    username: string,
    email: string,
    phone: string,
    password: string,
    role: string,
    gender: string,
    bio: string,
    socialLinks: seq<(string, string)>,
    isVerified: bool,
    isBanned: bool,
    verificationCode: Option<int>,
    verificationCodeExpire: Option<int>,
    refreshToken: Option<string>,
    following: seq<Id>,
    followers: seq<Id>,
    numFollowing: int,
    numFollowers: int)

  /** `docs` lists the stored users in the collection's natural order, each exactly once. */
  predicate InNaturalOrder(docs: seq<(Id, User)>, users: map<Id, User>)
  {
    (forall i :: 0 <= i < |docs| ==> docs[i].0 in users && users[docs[i].0] == docs[i].1)
    && (forall id :: id in users ==> exists i :: 0 <= i < |docs| && docs[i].0 == id)
    && (forall i, j :: 0 <= i < j < |docs| ==> docs[i].0 != docs[j].0)
  }

  /** The query's filter: another user (when `self` is given) with the same
      email or the same phone, compared exactly as MongoDB compares strings. */
  predicate Clashes(doc: (Id, User), self: Option<Id>, email: string, phone: string)
  {
    (self.None? || doc.0 != self.value) && (doc.1.email == email || doc.1.phone == phone)
  }

  /** `findOne`: the position of the first matching document in natural order. */
  function FirstClash(docs: seq<(Id, User)>, self: Option<Id>, email: string, phone: string): (r: Option<nat>)
    ensures r.Some? ==> r.value < |docs| && Clashes(docs[r.value], self, email, phone)
    ensures r.Some? ==> forall i :: 0 <= i < r.value ==> !Clashes(docs[i], self, email, phone)
    ensures r.None? <==> forall i :: 0 <= i < |docs| ==> !Clashes(docs[i], self, email, phone)
  {
    if docs == [] then None
    else if Clashes(docs[0], self, email, phone) then Some(0)
    else
      var rest := FirstClash(docs[1..], self, email, phone);
      assert forall i :: 1 <= i < |docs| ==> docs[i] == docs[1..][i - 1];
      if rest.Some? then Some(rest.value + 1) else None
  }

  /** The field the handlers name in their error: the first of `email` and
      `phone`, in that order, that equals the existing user's ignoring case. */
  function DuplicateField(existing: User, email: string, phone: string): (f: string)
    ensures f == "email" || f == "phone"
    ensures ToLower(existing.email) == ToLower(email) ==> f == "email"
    ensures existing.email == email ==> f == "email"
  {
    if ToLower(existing.email) == ToLower(email) then "email" else "phone"
  }

  /** The query result of the duplicate check: `None`, or the field to report. */
  function DuplicateOf(docs: seq<(Id, User)>, self: Option<Id>, email: string, phone: string): (r: Option<string>)
    ensures r.None? <==> forall i :: 0 <= i < |docs| ==> !Clashes(docs[i], self, email, phone)
  {
    var k := FirstClash(docs, self, email, phone);
    if k.None? then None else Some(DuplicateField(docs[k.value].1, email, phone))
  }

  /** The check refuses a value held by another user exactly; the user's own
      record never counts as a duplicate of itself. */
  lemma DuplicateIffTaken(docs: seq<(Id, User)>, users: map<Id, User>, self: Option<Id>, email: string, phone: string)
    requires InNaturalOrder(docs, users)
    ensures DuplicateOf(docs, self, email, phone).Some? <==>
            exists id :: id in users && (self.None? || id != self.value) && (users[id].email == email || users[id].phone == phone)
  {
    if DuplicateOf(docs, self, email, phone).Some? {
      var k :| 0 <= k < |docs| && Clashes(docs[k], self, email, phone);
      assert docs[k].0 in users;
    } else {
      forall id | id in users && (self.None? || id != self.value)
        ensures users[id].email != email && users[id].phone != phone
      {
        var i :| 0 <= i < |docs| && docs[i].0 == id;
        assert !Clashes(docs[i], self, email, phone);
      }
    }
  }
}
