/** The user's own profile (read and update) and the public view of
    another user. Neither view carries the password hash. */
module Users {
  import opened Wrappers
  import opened Errors
  import opened Store

  const USER_NOT_FOUND: string := "Пользователь не найден"

  /** The profile selection of `getCurrentUser` and `updateCurrentUser`. */
  datatype ProfileView = ProfileView(
    id: Id, phone: Option<string>, email: Option<string>, isPremium: bool, role: UserRole, createdAt: int, updatedAt: int)

  /** The public selection of `getUserById`: no role. */
  datatype PublicView = PublicView(id: Id, phone: Option<string>, email: Option<string>, isPremium: bool, createdAt: int)

  function Profile(u: User): ProfileView {
    ProfileView(u.id, u.phone, u.email, u.isPremium, u.role, u.createdAt, u.updatedAt)
  }

  /** `UpdateUserDto`: absent fields are left as they are. */
  datatype ProfilePatch = ProfilePatch(name: Option<string>, phone: Option<string>, avatar: Option<string>)

  /** The row after the update: only name, phone and avatar can change, and the update time is set. */
  function ApplyProfilePatch(u: User, p: ProfilePatch, now: int): (v: User)
    ensures v.id == u.id && v.email == u.email && v.passwordHash == u.passwordHash && v.role == u.role
    ensures v.isPremium == u.isPremium && v.provider == u.provider && v.providerId == u.providerId
    ensures v.createdAt == u.createdAt && v.updatedAt == now
    ensures v.phone == (if p.phone.Some? then p.phone else u.phone)
    ensures v.name == (if p.name.Some? then p.name else u.name)
    ensures v.avatar == (if p.avatar.Some? then p.avatar else u.avatar)
  {
    u.(name := if p.name.Some? then p.name else u.name,
       phone := if p.phone.Some? then p.phone else u.phone,
       avatar := if p.avatar.Some? then p.avatar else u.avatar,
       updatedAt := now)
  }

  /** Another user already holds the phone number the patch asks for. */
  predicate PhoneTakenByOther(users: seq<User>, userId: Id, p: ProfilePatch) {
    p.phone.Some? && UserByPhone(users, p.phone.value).Some? && users[UserByPhone(users, p.phone.value).value].id != userId
  }

  class UsersService {
    const db: Database

    constructor (db: Database)
      ensures this.db == db
    {
      this.db := db;
    }

    /** `getCurrentUser`: the caller's profile, or NotFound. */
    function GetCurrentUser(userId: Id): (r: Result<ProfileView, Failure>)
      reads db
      ensures r.Err? <==> UserById(db.users, userId).None?
      ensures r.Err? ==> r.error == Http(NotFound(USER_NOT_FOUND))
      ensures r.Ok? ==> r.value.id == userId && exists i :: 0 <= i < |db.users| && r.value == Profile(db.users[i])
    {
      match UserById(db.users, userId)
      case None => Err(Http(NotFound(USER_NOT_FOUND)))
      case Some(i) => Ok(Profile(db.users[i]))
    }

    /** `getUserById`: the public view of any user, or NotFound. */
    function GetUserById(id: Id): (r: Result<PublicView, Failure>)
      reads db
      ensures r.Err? <==> UserById(db.users, id).None?
      ensures r.Err? ==> r.error == Http(NotFound(USER_NOT_FOUND))
      ensures r.Ok? ==> r.value.id == id
      ensures r.Ok? ==> var u := db.users[UserById(db.users, id).value];
                        r.value == PublicView(u.id, u.phone, u.email, u.isPremium, u.createdAt)
      ensures r.Ok? ==> GetCurrentUser(id).Ok? && r.value.phone == GetCurrentUser(id).value.phone
                        && r.value.email == GetCurrentUser(id).value.email
    {
      match UserById(db.users, id)
      case None => Err(Http(NotFound(USER_NOT_FOUND)))
      case Some(i) =>
        var u := db.users[i];
        Ok(PublicView(u.id, u.phone, u.email, u.isPremium, u.createdAt))
    }

    /** `updateCurrentUser`: there is no existence check, so a missing user is
        the database's record-not-found error, and a phone held by another
        user breaks the unique constraint. On success the returned profile is
        what reading the profile afterwards gives. */
    method UpdateCurrentUser(userId: Id, p: ProfilePatch, now: int) returns (r: Result<ProfileView, Failure>)
      requires db.Valid()
      modifies db`users
      ensures db.Valid()
      ensures UserById(old(db.users), userId).None? ==> r == Err(Db(RecordNotFound)) && db.users == old(db.users)
      ensures UserById(old(db.users), userId).Some? && PhoneTakenByOther(old(db.users), userId, p) ==>
                r == Err(Db(UniqueViolation("phone"))) && db.users == old(db.users)
      ensures UserById(old(db.users), userId).Some? && !PhoneTakenByOther(old(db.users), userId, p) ==>
                var i := UserById(old(db.users), userId).value;
                && db.users == old(db.users)[i := ApplyProfilePatch(old(db.users)[i], p, now)]
                && r == Ok(Profile(db.users[i]))
      ensures r.Ok? ==> r == GetCurrentUser(userId)
    {
      var found := UserById(db.users, userId);
      if found.None? {
        return Err(Db(RecordNotFound));
      }
      if PhoneTakenByOther(db.users, userId, p) {
        return Err(Db(UniqueViolation("phone")));
      }
      var i := found.value;
      var v := ApplyProfilePatch(db.users[i], p, now);
      assert FreshUserKeys(db.users, i, v) by {
        if p.phone.Some? {
          var owner := UserByPhone(db.users, p.phone.value);
          if owner.Some? {
            assert owner.value == i by {
              UserByIdAt(db.users, owner.value);
            }
          }
        }
      }
      ReplaceUserUnique(db.users, i, v);
      db.users := db.users[i := v];
      UserByIdAt(db.users, i);
      r := Ok(Profile(v));
    }
  }
}
