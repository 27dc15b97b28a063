/** The backend's user routes: login, registration, the profile, and the
    wishlist. The user collection is a map from id to record; the handlers
    change the record they fetched field by field and store it back. The
    password check (`matchPassword`, a bcrypt comparison inside the User
    model) is a parameter, and tokens are not modelled. */
module UsersRoute {
  import opened Seqs
  import opened Http
  import opened Js

  /** A user document; `wishlist` holds product ids. */
  datatype User = User(
    id: string,
    name: string,
    email: string,
    password: string,
    isAdmin: bool,
    wishlist: seq<string>)

  /** The user part of a login, registration or profile-update answer. */
  datatype Session = Session(id: string, name: string, email: string, isAdmin: bool)

  function SessionOf(u: User): Session
  {
    Session(u.id, u.name, u.email, u.isAdmin)
  }

  /** The GET /profile answer: the five fields the route picks out of the
      document; the password is not among them. */
  datatype Profile = Profile(id: string, name: string, email: string, isAdmin: bool, wishlist: seq<string>)

  function ProfileOf(u: User): Profile
  {
    Profile(u.id, u.name, u.email, u.isAdmin, u.wishlist)
  }

  /** The profile answer shows every field but the password: two records
      give the same answer exactly when they differ at most in their
      passwords. */
  lemma ProfileWithholdsPassword(u: User, v: User)
    ensures ProfileOf(u) == ProfileOf(v) <==> u.(password := v.password) == v
  {
  }

  /** Every record sits under its own id, and no email is held twice. */
  predicate WellKeyed(users: map<string, User>)
  {
    forall id :: id in users ==> users[id].id == id
  }

  predicate UniqueEmails(users: map<string, User>)
  {
    forall a, b :: a in users && b in users && a != b ==> users[a].email != users[b].email
  }

  /** No wishlist names a product twice. */
  predicate DistinctWishlists(users: map<string, User>)
  {
    forall id :: id in users ==> Distinct(users[id].wishlist)
  }

  predicate EmailTaken(users: map<string, User>, email: string)
  {
    exists id :: id in users && users[id].email == email
  }

  /** `User.findOne({ email })`. */
  function FindByEmail(users: map<string, User>, email: string): (r: Option<string>)
    requires UniqueEmails(users)
    ensures r.Some? <==> EmailTaken(users, email)
    ensures r.Some? ==> r.value in users && users[r.value].email == email
  {
    if EmailTaken(users, email) then
      var id :| id in users && users[id].email == email;
      Some(id)
    else None
  }

  // ---------------------------------------------------------------- login

  /** POST /login: the user with that email, when the password check
      accepts the password; `None` is the 401 answer. */
  function LoginAnswer(users: map<string, User>, email: string, password: string,
                       passwordMatches: (string, string) -> bool): (r: Option<Session>)
    requires UniqueEmails(users)
    ensures r.Some? <==> exists id :: id in users && users[id].email == email
                                      && passwordMatches(password, users[id].password)
    ensures r.Some? ==> r.value.email == email
  {
    match FindByEmail(users, email)
    case None => None
    case Some(id) =>
      if passwordMatches(password, users[id].password) then Some(SessionOf(users[id])) else None
  }

  /** An email nobody registered is refused whatever the password. */
  lemma UnknownEmailRefused(users: map<string, User>, email: string, password: string,
                            passwordMatches: (string, string) -> bool)
    requires UniqueEmails(users) && !EmailTaken(users, email)
    ensures LoginAnswer(users, email, password, passwordMatches) == None
  {
  }

  // ------------------------------------------------------------- handlers

  /** The answer of a handler and the collection it leaves. */
  datatype UserChange = UserChange(status: Status, users: map<string, User>)

  /** POST /: a taken email is refused; otherwise a non-admin user with an
      empty wishlist is stored under the fresh id the store assigns. */
  function AfterRegister(users: map<string, User>, newId: string, name: string, email: string,
                         password: string): UserChange
  {
    if EmailTaken(users, email) then UserChange(BadRequest, users)
    else UserChange(Created, users[newId := User(newId, name, email, password, false, [])])
  }

  /** The profile assignments: `name || user.name`, `email || user.email`,
      and the password only when one is given. */
  function ProfileUpdated(u: User, name: Option<string>, email: Option<string>, password: Option<string>): User
  {
    u.(name := TextOr(name, u.name), email := TextOr(email, u.email), password := TextOr(password, u.password))
  }

  /** A user other than `userId` holds `email`. */
  predicate HeldByOther(users: map<string, User>, userId: string, email: string)
  {
    exists other :: other in users && other != userId && users[other].email == email
  }

  /** PUT /profile. Saving an email another user holds breaks the email
      index and the save throws. */
  function AfterProfileUpdate(users: map<string, User>, userId: string, name: Option<string>,
                              email: Option<string>, password: Option<string>): UserChange
  {
    if userId !in users then UserChange(NotFound, users)
    else
      var u := ProfileUpdated(users[userId], name, email, password);
      if HeldByOther(users, userId, u.email)
      then UserChange(ServerError, users)
      else UserChange(Ok, users[userId := u])
  }

  /** POST /wishlist. */
  function AfterWishlistAdd(users: map<string, User>, userId: string, productId: string): UserChange
  {
    if userId !in users then UserChange(NotFound, users)
    else if productId in users[userId].wishlist then UserChange(BadRequest, users)
    else UserChange(Ok, users[userId := users[userId].(wishlist := users[userId].wishlist + [productId])])
  }

  /** `wishlist.filter((id) => id.toString() !== productId)`. */
  function WithoutProduct(wishlist: seq<string>, productId: string): seq<string>
  {
    Filter(wishlist, (id: string) => id != productId)
  }

  /** DELETE /wishlist/:id. */
  function AfterWishlistRemove(users: map<string, User>, userId: string, productId: string): UserChange
  {
    if userId !in users then UserChange(NotFound, users)
    else UserChange(Ok, users[userId := users[userId].(wishlist := WithoutProduct(users[userId].wishlist, productId))])
  }

  /** Registering a taken email is refused with 400 and creates nobody; a
      free email creates exactly one user, and registering it again is then
      refused. */
  lemma RegisterChecksEmail(users: map<string, User>, newId: string, name: string, email: string,
                            password: string, name2: string, password2: string, newId2: string)
    requires newId !in users
    ensures EmailTaken(users, email) ==> AfterRegister(users, newId, name, email, password) == UserChange(BadRequest, users)
    ensures !EmailTaken(users, email)
            ==> var after := AfterRegister(users, newId, name, email, password).users;
                after.Keys == users.Keys + {newId}
                && after[newId] == User(newId, name, email, password, false, [])
                && AfterRegister(after, newId2, name2, email, password2).status == BadRequest
  {
    if !EmailTaken(users, email) {
      var after := AfterRegister(users, newId, name, email, password).users;
      assert after[newId].email == email;
    }
  }

  /** Registration keeps the collection well keyed, emails unique and
      wishlists free of repetitions. */
  lemma RegisterKeepsInvariant(users: map<string, User>, newId: string, name: string, email: string, password: string)
    requires WellKeyed(users) && UniqueEmails(users) && newId !in users
    requires DistinctWishlists(users)
    ensures var after := AfterRegister(users, newId, name, email, password).users;
            WellKeyed(after) && UniqueEmails(after) && DistinctWishlists(after)
  {
  }

  /** An omitted or empty name or email keeps the old one; the password
      changes only when a non-empty one is supplied; the id, the admin flag
      and the wishlist never change. */
  lemma ProfileFallbacks(u: User, name: Option<string>, email: Option<string>, password: Option<string>)
    ensures var r := ProfileUpdated(u, name, email, password);
            r.id == u.id && r.isAdmin == u.isAdmin && r.wishlist == u.wishlist
            && (name.None? || name == Some("") ==> r.name == u.name)
            && (email.None? || email == Some("") ==> r.email == u.email)
            && (r.password != u.password ==> password.Some? && password.value != "" && r.password == password.value)
    ensures ProfileUpdated(u, None, None, None) == u
  {
  }

  /** A profile update keeps the collection well keyed with unique emails
      and leaves every wishlist alone. */
  lemma ProfileKeepsInvariant(users: map<string, User>, userId: string, name: Option<string>,
                              email: Option<string>, password: Option<string>)
    requires WellKeyed(users) && UniqueEmails(users)
    requires DistinctWishlists(users)
    ensures var after := AfterProfileUpdate(users, userId, name, email, password).users;
            WellKeyed(after) && UniqueEmails(after) && DistinctWishlists(after)
  {
  }

  /** Adding a product already wished for is refused with 400 and nothing
      changes; a new one is appended and then occurs exactly once in a
      wishlist without repetitions, which stays without repetitions. */
  lemma WishlistAdd(users: map<string, User>, userId: string, productId: string)
    requires userId in users
    ensures productId in users[userId].wishlist
            ==> AfterWishlistAdd(users, userId, productId) == UserChange(BadRequest, users)
    ensures productId !in users[userId].wishlist
            ==> var after := AfterWishlistAdd(users, userId, productId).users;
                after[userId].wishlist == users[userId].wishlist + [productId]
                && (Distinct(users[userId].wishlist)
                    ==> Distinct(after[userId].wishlist) && multiset(after[userId].wishlist)[productId] == 1)
  {
    var w := users[userId].wishlist;
    if productId !in w && Distinct(w) {
      var w' := w + [productId];
      assert Distinct(w') by {
        forall i, j | 0 <= i < j < |w'| ensures w'[i] != w'[j] {
          if j == |w| {
            assert w'[i] == w[i];
          } else {
            assert w'[i] == w[i] && w'[j] == w[j];
          }
        }
      }
      DistinctOnce(w', productId);
    }
  }

  /** Removal drops every occurrence of the product and keeps every other
      entry in order; an absent product leaves the wishlist as it was. */
  lemma WishlistRemove(wishlist: seq<string>, productId: string)
    ensures productId !in WithoutProduct(wishlist, productId)
    ensures forall x :: x != productId ==> (x in WithoutProduct(wishlist, productId) <==> x in wishlist)
    ensures productId !in wishlist ==> WithoutProduct(wishlist, productId) == wishlist
    ensures Distinct(wishlist) ==> Distinct(WithoutProduct(wishlist, productId))
  {
    var keep := (id: string) => id != productId;
    var r := WithoutProduct(wishlist, productId);
    forall x | x in r ensures x in wishlist && x != productId {
      var i :| 0 <= i < |r| && r[i] == x;
    }
    forall x | x in wishlist && x != productId ensures x in r {
      var i :| 0 <= i < |wishlist| && wishlist[i] == x;
    }
    if productId !in wishlist {
      FilterKeepsAll(wishlist, keep);
    }
    if Distinct(wishlist) {
      FilterDistinct(wishlist, keep);
    }
  }

  /** Removing a product just added gives back the wishlist from before. */
  lemma {:induction false} AddThenRemove(wishlist: seq<string>, productId: string)
    requires productId !in wishlist
    ensures WithoutProduct(wishlist + [productId], productId) == wishlist
  {
    var keep := (id: string) => id != productId;
    FilterAppend(wishlist, [productId], keep);
    FilterKeepsAll(wishlist, keep);
    assert Filter([productId], keep) == [];
  }

  /** For an unknown user every profile and wishlist handler answers 404 and
      changes nothing. */
  lemma UnknownUserNotFound(users: map<string, User>, userId: string, productId: string,
                            name: Option<string>, email: Option<string>, password: Option<string>)
    requires userId !in users
    ensures AfterProfileUpdate(users, userId, name, email, password) == UserChange(NotFound, users)
    ensures AfterWishlistAdd(users, userId, productId) == UserChange(NotFound, users)
    ensures AfterWishlistRemove(users, userId, productId) == UserChange(NotFound, users)
  {
  }

  /** The documents of a collection one after another, each once; the
      key taken next is whichever the store picks. */
  method ListUsers(store: map<string, User>) returns (all: seq<User>)
    requires WellKeyed(store)
    ensures |all| == |store|
    ensures forall u :: u in all <==> u in store.Values
    ensures forall i, j :: 0 <= i < j < |all| ==> all[i] != all[j]
  {
    var rest := store.Keys;
    all := [];
    while rest != {}
      invariant rest <= store.Keys
      invariant |all| + |rest| == |store.Keys|
      invariant forall j :: 0 <= j < |all| ==> all[j].id in store && store[all[j].id] == all[j] && all[j].id !in rest
      invariant forall id :: id in store && id !in rest ==> store[id] in all
      invariant forall i, j :: 0 <= i < j < |all| ==> all[i].id != all[j].id
      decreases |rest|
    {
      var id :| id in rest;
      all := all + [store[id]];
      rest := rest - {id};
    }
    assert |store.Keys| == |store|;
    forall u | u in store.Values
      ensures u in all
    {
      var id :| id in store && store[id] == u;
    }
  }

  /** The user collection. */
  class UserStore {
    var users: map<string, User>

    ghost predicate Valid()
      reads this
    {
      WellKeyed(users) && UniqueEmails(users) && DistinctWishlists(users)
    }

    constructor ()
      ensures Valid() && users == map[]
    {
      users := map[];
    }

    /** POST /login. */
    method Login(email: string, password: string, passwordMatches: (string, string) -> bool)
      returns (status: Status, session: Option<Session>)
      requires Valid()
      ensures session == LoginAnswer(users, email, password, passwordMatches)
      ensures status == Ok <==> session.Some?
      ensures status == Unauthorized <==> session.None?
    {
      var found := FindByEmail(users, email);
      if found.Some? && passwordMatches(password, users[found.value].password) {
        var user := users[found.value];
        status, session := Ok, Some(SessionOf(user));
      } else {
        status, session := Unauthorized, None;
      }
    }

    /** POST /: `newId` is the id the store assigns to the new document. */
    method Register(newId: string, name: string, email: string, password: string)
      returns (status: Status, session: Option<Session>)
      requires Valid() && newId !in users
      modifies this
      ensures Valid()
      ensures UserChange(status, users) == AfterRegister(old(users), newId, name, email, password)
      ensures status == Created ==> session == Some(Session(newId, name, email, false))
      ensures status != Created ==> session == None
    {
      var userExists := FindByEmail(users, email);
      if userExists.Some? {
        return BadRequest, None;
      }
      var user := User(newId, name, email, password, false, []);
      users := users[newId := user];
      status, session := Created, Some(SessionOf(user));
    }

    /** GET /profile. */
    method GetProfile(userId: string) returns (status: Status, profile: Option<Profile>)
      ensures userId in users ==> status == Ok && profile == Some(ProfileOf(users[userId]))
      ensures userId in users ==> var u := users[userId];
                profile.value.id == u.id && profile.value.name == u.name && profile.value.email == u.email
                && profile.value.isAdmin == u.isAdmin && profile.value.wishlist == u.wishlist
      ensures userId !in users ==> status == NotFound && profile == None
    {
      if userId in users {
        var user := users[userId];
        status, profile := Ok, Some(Profile(user.id, user.name, user.email, user.isAdmin, user.wishlist));
      } else {
        status, profile := NotFound, None;
      }
    }

    /** PUT /profile, field by field, then save. */
    method UpdateProfile(userId: string, name: Option<string>, email: Option<string>, password: Option<string>)
      returns (status: Status)
      requires Valid()
      modifies this
      ensures Valid()
      ensures UserChange(status, users) == AfterProfileUpdate(old(users), userId, name, email, password)
    {
      if userId !in users {
        return NotFound;
      }
      var user := users[userId];
      user := user.(name := if name.Some? && name.value != "" then name.value else user.name);
      user := user.(email := if email.Some? && email.value != "" then email.value else user.email);
      if password.Some? && password.value != "" {
        user := user.(password := password.value);
      }
      assert user == ProfileUpdated(users[userId], name, email, password);
      if HeldByOther(users, userId, user.email) {
        return ServerError;
      }
      ProfileKeepsInvariant(users, userId, name, email, password);
      assert AfterProfileUpdate(users, userId, name, email, password).users == users[userId := user];
      users := users[userId := user];
      status := Ok;
    }

    /** POST /wishlist. */
    method AddToWishlist(userId: string, productId: string) returns (status: Status)
      requires Valid()
      modifies this
      ensures Valid()
      ensures UserChange(status, users) == AfterWishlistAdd(old(users), userId, productId)
    {
      if userId !in users {
        return NotFound;
      }
      var user := users[userId];
      if productId in user.wishlist {
        return BadRequest;
      }
      WishlistAdd(users, userId, productId);
      user := user.(wishlist := user.wishlist + [productId]);
      users := users[userId := user];
      status := Ok;
    }

    /** DELETE /wishlist/:id. */
    method RemoveFromWishlist(userId: string, productId: string) returns (status: Status)
      requires Valid()
      modifies this
      ensures Valid()
      ensures UserChange(status, users) == AfterWishlistRemove(old(users), userId, productId)
    {
      if userId !in users {
        return NotFound;
      }
      var user := users[userId];
      WishlistRemove(user.wishlist, productId);
      user := user.(wishlist := WithoutProduct(user.wishlist, productId));
      users := users[userId := user];
      status := Ok;
    }

    /** GET / (admin): every user, each exactly once, in the order the
        store hands them out. */
    method AllUsers() returns (all: seq<User>)
      requires Valid()
      ensures |all| == |users|
      ensures forall u :: u in all <==> u in users.Values
      ensures forall i, j :: 0 <= i < j < |all| ==> all[i] != all[j]
    {
      all := ListUsers(users);
    }
  }
}
