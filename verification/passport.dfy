/** The Google sign-in callback (backend/src/config/passport.ts): find the user
    by Google id; failing that, link the Google id to the user with the
    profile's first e-mail address; failing that, create a user from the
    profile. A profile without an e-mail address that matches nobody is
    refused. The user table is a sequence of records; `findUnique` on a unique
    column is the first record that matches. */
module Passport {
  import opened Common
  import opened Records

  /** What Google reports about the signed-in account. */
  datatype Profile = Profile(id: string, emails: seq<string>, displayName: Option<string>)

  function HasGoogleId(googleId: string): User -> bool {
    (u: User) => u.googleId == Some(googleId)
  }

  function HasEmail(email: string): User -> bool {
    (u: User) => u.email == email
  }

  function SetGoogleId(googleId: string): User -> User {
    (u: User) => u.(googleId := Some(googleId))
  }

  /** The outcome of the callback: the user table afterwards and the signed-in
      user, or `None` for `done(null, false)`. */
  datatype SignIn = SignIn(users: seq<User>, user: Option<User>)

  /** `prisma.user.create` for a profile nobody matched. */
  function NewUser(users: seq<User>, profile: Profile): (u: User)
    requires |profile.emails| > 0
    ensures u.id !in set x | x in users :: x.id
    ensures u.email == profile.emails[0] && u.googleId == Some(profile.id)
    ensures u.name.Some? <==> TruthyString(profile.displayName)
  {
    User(FreshId(users, UserId), profile.emails[0], NullIfEmpty(profile.displayName), Some(profile.id))
  }

  /** The verify callback: the user holding the Google id signs in with the
      table untouched; else the first e-mail's user gets the Google id written
      to its row and signs in as updated; else a new user is appended and signs
      in. */
  function Authenticate(users: seq<User>, profile: Profile): (r: SignIn)
    ensures var byGoogle := FindFirst(users, HasGoogleId(profile.id));
            byGoogle.Some? ==> r.users == users && r.user == byGoogle
    ensures var byGoogle := FindFirst(users, HasGoogleId(profile.id));
            byGoogle.None? && |profile.emails| > 0 && FindFirst(users, HasEmail(profile.emails[0])).Some? ==>
              var u := FindFirst(users, HasEmail(profile.emails[0])).value;
              r.user == Some(u.(googleId := Some(profile.id)))
              && r.users == UpdateWhere(users, UserId, u.id, SetGoogleId(profile.id))
    ensures var byGoogle := FindFirst(users, HasGoogleId(profile.id));
            byGoogle.None? && |profile.emails| > 0 && FindFirst(users, HasEmail(profile.emails[0])).None? ==>
              r.users == users + [NewUser(users, profile)] && r.user == Some(NewUser(users, profile))
    ensures r.user.None? <==>
              (forall i :: 0 <= i < |users| ==> users[i].googleId != Some(profile.id)) && |profile.emails| == 0
    ensures r.user.None? ==> r.users == users
    ensures r.user.Some? ==> r.user.value in r.users && r.user.value.googleId == Some(profile.id)
    ensures |r.users| == |users| || |r.users| == |users| + 1
    ensures |r.users| == |users| + 1 <==>
              (forall i :: 0 <= i < |users| ==> users[i].googleId != Some(profile.id))
              && |profile.emails| > 0
              && forall i :: 0 <= i < |users| ==> users[i].email != profile.emails[0]
  {
    match FindFirst(users, HasGoogleId(profile.id))
    case Some(u) => SignIn(users, Some(u))
    case None =>
      if |profile.emails| == 0 then SignIn(users, None)
      else match FindFirst(users, HasEmail(profile.emails[0]))
        case Some(u) =>
          var linked := u.(googleId := Some(profile.id));
          var updated := UpdateWhere(users, UserId, u.id, SetGoogleId(profile.id));
          LinkedIsStored(users, u, profile.id);
          SignIn(updated, Some(linked))
        case None =>
          var created := NewUser(users, profile);
          SignIn(users + [created], Some(created))
  }

  /** The record the link step writes is in the table it answers with. */
  lemma LinkedIsStored(users: seq<User>, u: User, googleId: string)
    requires u in users
    ensures u.(googleId := Some(googleId)) in UpdateWhere(users, UserId, u.id, SetGoogleId(googleId))
  {
    var k :| 0 <= k < |users| && users[k] == u;
    assert UpdateWhere(users, UserId, u.id, SetGoogleId(googleId))[k] == u.(googleId := Some(googleId));
  }

  /** Signing in never changes a user's id or e-mail address, and never
      changes anything but the Google id of an existing user. */
  lemma ExistingUsersKeepIdentity(users: seq<User>, profile: Profile)
    ensures var r := Authenticate(users, profile).users;
            forall i :: 0 <= i < |users| ==>
              r[i].id == users[i].id && r[i].email == users[i].email && r[i].name == users[i].name
  {
  }

  /** Signing in twice with the same profile signs in the same user and leaves
      the table as the first sign-in left it. */
  lemma SignInIsIdempotent(users: seq<User>, profile: Profile)
    requires UniqueIds(users, UserId)
    ensures var first := Authenticate(users, profile);
            var second := Authenticate(first.users, profile);
            second == first
  {
    var first := Authenticate(users, profile);
    var p := HasGoogleId(profile.id);
    if FindFirst(users, p).None? && |profile.emails| > 0 {
      var byEmail := FindFirst(users, HasEmail(profile.emails[0]));
      if byEmail.Some? {
        var u := byEmail.value;
        var updated := first.users;
        var k :| 0 <= k < |users| && users[k] == u;
        assert forall i :: 0 <= i < k ==> !p(updated[i]);
        assert p(updated[k]);
        FirstMatchAt(updated, p, k);
      } else {
        FirstMatchAt(first.users, p, |users|);
      }
    }
  }

  /** `FindFirst` finds the record at `k` when it matches and none before it does. */
  lemma {:induction false} FirstMatchAt(items: seq<User>, p: User -> bool, k: nat)
    requires k < |items| && p(items[k])
    requires forall i :: 0 <= i < k ==> !p(items[i])
    ensures FindFirst(items, p) == Some(items[k])
  {
    if k > 0 {
      FirstMatchAt(items[1..], p, k - 1);
    }
  }
}
