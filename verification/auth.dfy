/** The session store: the signed-in user (or none) and the four ways the
    pages change it. Password checks, storage and id generation are not
    part of it: ids and timestamps are passed in. */
module Auth {
  import opened Wrappers
  import opened Types

  /** The accounts login accepts. */
  const MockUsers: seq<User> := [
    User("1", "host@example.com", "John Host", "+91 9876543210", "host", None, true, 4.8, 156, 2500, "2024-01-01"),
    User("2", "rider@example.com", "Sarah Rider", "+91 9876543211", "rider", None, true, 4.6, 89, 500, "2024-01-02"),
    User("3", "admin@example.com", "Admin User", "+91 9876543212", "admin", None, true, 5.0, 0, 0, "2024-01-01")
  ]

  /** `mockUsers.find(u => u.email === email)` from index `from` on. */
  function FindByEmail(users: seq<User>, email: string): (r: Option<User>)
    ensures r.Some? <==> exists i :: 0 <= i < |users| && users[i].email == email
    ensures r.Some? ==> r.value in users && r.value.email == email
    ensures r.Some? ==> exists i :: 0 <= i < |users| && users[i] == r.value &&
                                    forall j :: 0 <= j < i ==> users[j].email != email
  {
    if |users| == 0 then None
    else if users[0].email == email then Some(users[0])
    else FindByEmail(users[1..], email)
  }

  /** `login(email, password)`: succeeds exactly when a mock account has this
      email, whatever the password, and signs that account in; on failure the
      session is left as it was. */
  function Login(current: Option<User>, email: string, password: string): (r: (bool, Option<User>))
    ensures r.0 <==> exists i :: 0 <= i < |MockUsers| && MockUsers[i].email == email
    ensures r.0 ==> r.1.Some? && r.1.value in MockUsers && r.1.value.email == email
    ensures !r.0 ==> r.1 == current
  {
    match FindByEmail(MockUsers, email)
    case Some(u) => (true, Some(u))
    case None => (false, current)
  }

  /** The password plays no part in login. */
  lemma LoginIgnoresPassword(current: Option<User>, email: string, p1: string, p2: string)
    ensures Login(current, email, p1) == Login(current, email, p2)
  {
  }

  /** The registration form's fields that become part of the account. */
  datatype Registration = Registration(name: string, email: string, phone: string, role: string)

  /** `register(userData)`: always succeeds and signs in a fresh account built
      from the form, unverified, unrated and with an empty wallet. */
  function Register(current: Option<User>, data: Registration, id: string, createdAt: string): (r: (bool, Option<User>))
    ensures r.0 && r.1.Some?
    ensures var u := r.1.value;
            && u.name == data.name && u.email == data.email && u.phone == data.phone && u.role == data.role
            && u.id == id && u.createdAt == createdAt && u.avatar.None?
            && !u.kycVerified && u.rating == 0.0 && u.totalReviews == 0 && u.wallet == 0
  {
    (true, Some(User(id, data.email, data.name, data.phone, data.role, None, false, 0.0, 0, 0, createdAt)))
  }

  /** The emails login accepts. */
  function MockEmails(): set<string> {
    set i | 0 <= i < |MockUsers| :: MockUsers[i].email
  }

  /** `register` never adds to the accounts login searches: once signed out,
      the registered email logs in again only when a mock account already
      has it, and then it is that mock account, verified, that signs in,
      not the new one. */
  lemma RegisterNotRemembered(data: Registration, id: string, createdAt: string, password: string)
    ensures var account := Register(None, data, id, createdAt).1;
            var again := Login(Logout(account), data.email, password);
            && (again.0 <==> data.email in MockEmails())
            && (again.0 ==> again.1.value.kycVerified && again.1 != account)
            && (!again.0 ==> again.1.None?)
  {
    var again := Login(None, data.email, password);
    if again.0 {
      var i :| 0 <= i < |MockUsers| && MockUsers[i].email == data.email;
      assert MockUsers[i].email in MockEmails();
    }
  }

  /** `logout()`: nobody is signed in afterwards. */
  function Logout(current: Option<User>): (r: Option<User>)
    ensures r.None?
  {
    None
  }

  /** A `Partial<User>`: the fields to overwrite; `None` leaves a field alone. */
  datatype UserPatch = UserPatch(
    id: Option<string>,
    email: Option<string>,
    name: Option<string>,
    phone: Option<string>,
    role: Option<string>,
    avatar: Option<Option<string>>,
    kycVerified: Option<bool>,
    rating: Option<real>,
    totalReviews: Option<int>,
    wallet: Option<int>,
    createdAt: Option<string>)

  const NoChange := UserPatch(None, None, None, None, None, None, None, None, None, None, None)

  /** `{ ...user, ...patch }`: each supplied field replaces the user's. */
  function Merge(u: User, p: UserPatch): (r: User)
    ensures r.id == p.id.GetOr(u.id) && r.email == p.email.GetOr(u.email)
    ensures r.name == p.name.GetOr(u.name) && r.phone == p.phone.GetOr(u.phone)
    ensures r.role == p.role.GetOr(u.role) && r.avatar == p.avatar.GetOr(u.avatar)
    ensures r.kycVerified == p.kycVerified.GetOr(u.kycVerified) && r.rating == p.rating.GetOr(u.rating)
    ensures r.totalReviews == p.totalReviews.GetOr(u.totalReviews) && r.wallet == p.wallet.GetOr(u.wallet)
    ensures r.createdAt == p.createdAt.GetOr(u.createdAt)
  {
    User(
      p.id.GetOr(u.id), p.email.GetOr(u.email), p.name.GetOr(u.name), p.phone.GetOr(u.phone),
      p.role.GetOr(u.role), p.avatar.GetOr(u.avatar), p.kycVerified.GetOr(u.kycVerified),
      p.rating.GetOr(u.rating), p.totalReviews.GetOr(u.totalReviews), p.wallet.GetOr(u.wallet),
      p.createdAt.GetOr(u.createdAt))
  }

  /** The patch that supplies every field of `v`. */
  function Full(v: User): UserPatch {
    UserPatch(Some(v.id), Some(v.email), Some(v.name), Some(v.phone), Some(v.role), Some(v.avatar),
              Some(v.kycVerified), Some(v.rating), Some(v.totalReviews), Some(v.wallet), Some(v.createdAt))
  }

  /** A patch that supplies every field replaces the user outright, and one
      that supplies a user's own values leaves them as they are. */
  lemma MergeFull(u: User, v: User)
    ensures Merge(u, Full(v)) == v
    ensures Merge(v, Full(v)) == v
  {
  }

  /** Signed out, no update has any effect and login alone decides who is
      signed in next. */
  lemma LogoutEndsSession(current: Option<User>, p: UserPatch, email: string, password: string)
    ensures UpdateUser(Logout(current), p).None?
    ensures WalletBalance(Logout(current)) == 0
    ensures Login(Logout(current), email, password).1 == FindByEmail(MockUsers, email)
  {
  }

  /** `updateUser(patch)`: merges into the signed-in user; does nothing when
      nobody is signed in. */
  function UpdateUser(current: Option<User>, p: UserPatch): (r: Option<User>)
    ensures current.None? ==> r.None?
    ensures current.Some? ==> r.Some? && r.value == Merge(current.value, p)
  {
    if current.None? then None else Some(Merge(current.value, p))
  }

  /** The later patch wins field by field. */
  function Then(p: UserPatch, q: UserPatch): UserPatch {
    UserPatch(
      if q.id.Some? then q.id else p.id,
      if q.email.Some? then q.email else p.email,
      if q.name.Some? then q.name else p.name,
      if q.phone.Some? then q.phone else p.phone,
      if q.role.Some? then q.role else p.role,
      if q.avatar.Some? then q.avatar else p.avatar,
      if q.kycVerified.Some? then q.kycVerified else p.kycVerified,
      if q.rating.Some? then q.rating else p.rating,
      if q.totalReviews.Some? then q.totalReviews else p.totalReviews,
      if q.wallet.Some? then q.wallet else p.wallet,
      if q.createdAt.Some? then q.createdAt else p.createdAt)
  }

  /** Applying the same patch twice is applying it once. */
  lemma UpdateIdempotent(current: Option<User>, p: UserPatch)
    ensures UpdateUser(UpdateUser(current, p), p) == UpdateUser(current, p)
  {
  }

  /** Two updates in a row are one update with the merged patch. */
  lemma UpdateCompose(current: Option<User>, p: UserPatch, q: UserPatch)
    ensures UpdateUser(UpdateUser(current, p), q) == UpdateUser(current, Then(p, q))
  {
  }

  /** An empty patch changes nothing. */
  lemma UpdateNothing(current: Option<User>)
    ensures UpdateUser(current, NoChange) == current
  {
  }
}
