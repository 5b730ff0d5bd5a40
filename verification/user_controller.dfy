/** The user-management endpoints: registration's input and duplicate checks,
    the administrator's filtered listing, role change and deletion with its
    cascade over carts and orders. The authenticated caller is given as an id. */
module UserController {
  import opened Common
  import opened Store
  import opened Listing
  import opened OrderController

  // ---------------------------------------------------------------------------
  // register

  /** The body of `POST /user/register`; a missing field is "". */
  datatype Registration = Registration(name: string, phone: string, email: string, password: string)

  /** The `data` of the `201` response. */
  datatype Registered = Registered(id: UserId, name: string, email: string)

  predicate MissingInputs(reg: Registration) {
    reg.name == "" || reg.phone == "" || reg.email == "" || reg.password == ""
  }

  /** `POST /user/register`. The e-mail is stored and looked up in the form the
      schema's `lowercase` setter gives it (`lower`); `passwordHash` is the
      salted hash of the password. The new user has role `customer`. */
  method Register(db: Database, reg: Registration, lower: string -> string, passwordHash: string)
    returns (r: Result<Registered, ApiError>)
    requires db.Valid()
    modifies db
    ensures db.Valid()
    ensures db.products == old(db.products) && db.carts == old(db.carts) && db.orders == old(db.orders)
    ensures r.Failure? ==> db.users == old(db.users) && db.nextId == old(db.nextId)
    ensures MissingInputs(reg) ==> r == Failure(ApiError(400, "Missing inputs"))
    ensures !MissingInputs(reg) && IndexOf(old(db.users), EmailKey, lower(reg.email)) >= 0 ==>
      r == Failure(ApiError(400, "Email already exists"))
    ensures !MissingInputs(reg) && IndexOf(old(db.users), EmailKey, lower(reg.email)) == -1 ==>
      && db.users == old(db.users) + [User(old(db.nextId), reg.name, reg.phone, lower(reg.email), passwordHash, Customer)]
      && db.nextId == old(db.nextId) + 1
      && r == Success(Registered(old(db.nextId), reg.name, lower(reg.email)))
    ensures r.Success? ==> IndexOf(db.users, EmailKey, lower(reg.email)) == |old(db.users)|
  {
    if reg.name == "" || reg.phone == "" || reg.email == "" || reg.password == "" {
      return Failure(ApiError(400, "Missing inputs"));
    }
    var email := lower(reg.email);
    if IndexOf(db.users, EmailKey, email) != -1 {
      return Failure(ApiError(400, "Email already exists"));
    }
    var u := User(db.nextId, reg.name, reg.phone, email, passwordHash, Customer);
    DistinctByAppend(db.users, UserKey, u);
    DistinctByAppend(db.users, EmailKey, u);
    IndexOfIs(db.users + [u], EmailKey, email, |db.users|);
    db.users := db.users + [u];
    db.nextId := db.nextId + 1;
    r := Success(Registered(u.id, u.name, u.email));
  }

  // ---------------------------------------------------------------------------
  // getAllUsers

  /** A listed user: the record without `password_hash` (and refresh token). */
  datatype PublicUser = PublicUser(id: UserId, name: string, phone: string, email: string, role: Role)

  function Public(u: User): (v: PublicUser)
    ensures v.id == u.id && v.email == u.email && v.role == u.role
  {
    PublicUser(u.id, u.name, u.phone, u.email, u.role)
  }

  /** `query.role = role` when given (a string outside the enum matches no
      one), and the name-or-email pattern when `search` is given. */
  predicate UserMatches(u: User, role: string, search: string, matches: (string, string) -> bool) {
    && (role == "" || RoleName(u.role) == role)
    && (search == "" || matches(search, u.name) || matches(search, u.email))
  }

  /** The users the query selects, in stored order. */
  function MatchingUsers(us: seq<User>, role: string, search: string, matches: (string, string) -> bool)
    : (m: seq<User>)
    ensures |m| <= |us|
    ensures forall j | 0 <= j < |m| :: UserMatches(m[j], role, search, matches) && m[j] in us
    ensures forall j | 0 <= j < |us| :: UserMatches(us[j], role, search, matches) ==> us[j] in m
  {
    if |us| == 0 then []
    else
      var rest := MatchingUsers(us[1..], role, search, matches);
      assert forall j | 0 <= j < |us[1..]| :: us[1..][j] == us[j + 1];
      if UserMatches(us[0], role, search, matches) then [us[0]] + rest else rest
  }

  function PublicAll(us: seq<User>): (vs: seq<PublicUser>)
    ensures |vs| == |us| && forall j | 0 <= j < |us| :: vs[j] == Public(us[j])
  {
    if |us| == 0 then [] else [Public(us[0])] + PublicAll(us[1..])
  }

  /** `getAllUsers`: `arrange` stands for the store's sort on the parsed option. */
  function ListUsers(
    us: seq<User>, role: string, search: string, sort: string,
    rawPage: Option<int>, rawLimit: Option<int>,
    matches: (string, string) -> bool,
    arrange: (SortOption, seq<User>) -> seq<User>): (r: Result<Listing<PublicUser>, ApiError>)
    ensures var m := MatchingUsers(us, role, search, matches);
      && (r.Success? ==> r.value.meta.total == |m|)
      && (r.Success? && multiset(arrange(ParseSort(sort), m)) == multiset(m) ==>
          forall j | 0 <= j < |r.value.data| ::
            var v := r.value.data[j];
            && v in PublicAll(us)
            && (role == "" || RoleName(v.role) == role)
            && (search == "" || matches(search, v.name) || matches(search, v.email)))
  {
    var m := MatchingUsers(us, role, search, matches);
    ListedUsersMatch(us, role, search, matches, arrange(ParseSort(sort), m), rawPage, rawLimit);
    Paginate(PublicAll(m), PublicAll(arrange(ParseSort(sort), m)), rawPage, rawLimit)
  }

  /** When the store's sort only rearranges the matched users, every listed
      entry is the public view of a stored user who matches the query. */
  lemma ListedUsersMatch(
    us: seq<User>, role: string, search: string, matches: (string, string) -> bool,
    arranged: seq<User>, rawPage: Option<int>, rawLimit: Option<int>)
    ensures var m := MatchingUsers(us, role, search, matches);
      var r := Paginate(PublicAll(m), PublicAll(arranged), rawPage, rawLimit);
      r.Success? && multiset(arranged) == multiset(m) ==>
        forall j | 0 <= j < |r.value.data| ::
          var v := r.value.data[j];
          && v in PublicAll(us)
          && (role == "" || RoleName(v.role) == role)
          && (search == "" || matches(search, v.name) || matches(search, v.email))
  {
    var m := MatchingUsers(us, role, search, matches);
    var r := Paginate(PublicAll(m), PublicAll(arranged), rawPage, rawLimit);
    if r.Success? && multiset(arranged) == multiset(m) {
      PaginateListsArranged(PublicAll(m), PublicAll(arranged), rawPage, rawLimit);
      forall j | 0 <= j < |r.value.data|
        ensures r.value.data[j] in PublicAll(us)
        ensures role == "" || RoleName(r.value.data[j].role) == role
        ensures search == "" || matches(search, r.value.data[j].name) || matches(search, r.value.data[j].email)
      {
        var v := r.value.data[j];
        var i :| 0 <= i < |arranged| && PublicAll(arranged)[i] == v;
        var u := arranged[i];
        assert u in multiset(m);
        var a :| 0 <= a < |m| && m[a] == u;
        var b :| 0 <= b < |us| && us[b] == u;
        assert PublicAll(us)[b] == v;
      }
    }
  }

  /** A role filter outside the enum selects nobody. */
  lemma {:induction false} UnknownRoleSelectsNobody(us: seq<User>, role: string, search: string, matches: (string, string) -> bool)
    requires role != "" && ParseRole(role).None?
    ensures MatchingUsers(us, role, search, matches) == []
  {
    if |us| > 0 {
      UnknownRoleSelectsNobody(us[1..], role, search, matches);
      assert RoleName(us[0].role) != role;
    }
  }

  /** The users holding a role, in stored order. */
  function UsersWithRole(us: seq<User>, r: Role): seq<User> {
    if |us| == 0 then [] else (if us[0].role == r then [us[0]] else []) + UsersWithRole(us[1..], r)
  }

  /** Filtering on a role name, with no search, selects exactly the users
      holding that role. */
  lemma {:induction false} RoleFilterSelectsRole(us: seq<User>, r: Role, matches: (string, string) -> bool)
    ensures MatchingUsers(us, RoleName(r), "", matches) == UsersWithRole(us, r)
  {
    if |us| > 0 {
      RoleFilterSelectsRole(us[1..], r, matches);
      RoleNameInjective(us[0].role, r);
      var rest := UsersWithRole(us[1..], r);
      assert UserMatches(us[0], RoleName(r), "", matches) <==> us[0].role == r;
      if us[0].role == r {
        assert MatchingUsers(us, RoleName(r), "", matches) == [us[0]] + rest;
      } else {
        assert MatchingUsers(us, RoleName(r), "", matches) == rest;
        assert UsersWithRole(us, r) == [] + rest;
      }
    }
  }

  // ---------------------------------------------------------------------------
  // updateUserRole, deleteUser

  /** `PUT /user/:id/role`: the role must be one of the enum; the caller may
      not change their own role; an unknown id gives 404; otherwise only that
      user's role changes. */
  method UpdateUserRole(db: Database, caller: UserId, id: UserId, role: string) returns (r: Result<PublicUser, ApiError>)
    requires db.Valid()
    modifies db
    ensures db.Valid()
    ensures db.products == old(db.products) && db.carts == old(db.carts)
    ensures db.orders == old(db.orders) && db.nextId == old(db.nextId)
    ensures r.Failure? ==> db.users == old(db.users)
    ensures ParseRole(role).None? ==> r == Failure(ApiError(400, "Vai trò không hợp lệ"))
    ensures ParseRole(role).Some? && caller == id ==>
      r == Failure(ApiError(403, "Không thể tự thay đổi vai trò của chính mình"))
    ensures ParseRole(role).Some? && caller != id && IndexOf(old(db.users), UserKey, id) == -1 ==>
      r == Failure(ApiError(404, "Không tìm thấy người dùng"))
    ensures var k := IndexOf(old(db.users), UserKey, id);
      ParseRole(role).Some? && caller != id && k >= 0 ==>
        && db.users == old(db.users)[k := old(db.users)[k].(role := ParseRole(role).value)]
        && r == Success(Public(db.users[k]))
  {
    var parsed := ParseRole(role);
    if parsed.None? {
      return Failure(ApiError(400, "Vai trò không hợp lệ"));
    }
    if caller == id {
      return Failure(ApiError(403, "Không thể tự thay đổi vai trò của chính mình"));
    }
    var k := IndexOf(db.users, UserKey, id);
    if k == -1 {
      return Failure(ApiError(404, "Không tìm thấy người dùng"));
    }
    DistinctByUpdate(db.users, UserKey, k, db.users[k].(role := parsed.value));
    DistinctByUpdate(db.users, EmailKey, k, db.users[k].(role := parsed.value));
    db.users := db.users[k := db.users[k].(role := parsed.value)];
    r := Success(Public(db.users[k]));
  }

  /** The orders that do not belong to a user, in stored order
      (`Order.deleteMany({ user_id })` leaves exactly these). */
  function OrdersNotOf(orders: seq<Order>, user: UserId): (rest: seq<Order>)
    ensures |rest| <= |orders|
    ensures forall j | 0 <= j < |rest| :: rest[j].user != user && rest[j] in orders
    ensures forall j | 0 <= j < |orders| :: orders[j].user != user ==> orders[j] in rest
  {
    if |orders| == 0 then []
    else
      var tail := OrdersNotOf(orders[1..], user);
      assert forall j | 0 <= j < |orders[1..]| :: orders[1..][j] == orders[j + 1];
      if orders[0].user != user then [orders[0]] + tail else tail
  }

  /** The cascade keeps order ids unique. */
  lemma {:induction false} OrdersNotOfKeepsDistinct(orders: seq<Order>, user: UserId)
    requires DistinctBy(orders, OrderKey)
    ensures DistinctBy(OrdersNotOf(orders, user), OrderKey)
  {
    if |orders| > 0 {
      DistinctByTail(orders, OrderKey);
      OrdersNotOfKeepsDistinct(orders[1..], user);
      var tail := OrdersNotOf(orders[1..], user);
      if orders[0].user != user {
        forall j | 0 <= j < |tail| ensures OrderKey(tail[j]) != OrderKey(orders[0]) {
          assert tail[j] in orders[1..];
        }
        DistinctByCons(orders[0], tail, OrderKey);
      }
    }
  }

  /** The cascade keeps what the database promises of its orders. */
  lemma OrdersNotOfKeepsOrders(orders: seq<Order>, user: UserId, bound: nat)
    requires DistinctBy(orders, OrderKey)
    requires forall i | 0 <= i < |orders| :: orders[i].id < bound && |orders[i].items| > 0
    ensures var rest := OrdersNotOf(orders, user);
      && DistinctBy(rest, OrderKey)
      && forall i | 0 <= i < |rest| :: rest[i].id < bound && |rest[i].items| > 0
  {
    OrdersNotOfKeepsDistinct(orders, user);
    var rest := OrdersNotOf(orders, user);
    forall i | 0 <= i < |rest| ensures rest[i].id < bound && |rest[i].items| > 0 {
      assert rest[i] in orders;
    }
  }

  /** Deleting the user at `k` keeps ids and e-mails unique, and leaves no
      user with that id. */
  lemma RemoveUserKeepsUsers(us: seq<User>, k: nat, bound: nat)
    requires k < |us| && DistinctBy(us, UserKey) && DistinctBy(us, EmailKey)
    requires forall i | 0 <= i < |us| :: us[i].id < bound
    ensures var rest := RemoveAt(us, k);
      && DistinctBy(rest, UserKey) && DistinctBy(rest, EmailKey)
      && (forall i | 0 <= i < |rest| :: rest[i].id < bound)
      && forall i | 0 <= i < |rest| :: rest[i].id != us[k].id
  {
    DistinctByRemoveAt(us, UserKey, k);
    DistinctByRemoveAt(us, EmailKey, k);
    var rest := RemoveAt(us, k);
    forall i | 0 <= i < |rest| ensures rest[i].id < bound && rest[i].id != us[k].id {
      var i' := if i < k then i else i + 1;
      assert rest[i] == us[i'] && UserKey(us[i']) != UserKey(us[k]);
    }
  }

  /** Deleting a user's orders twice deletes nothing more. */
  lemma {:induction false} OrdersNotOfIdempotent(orders: seq<Order>, user: UserId)
    ensures OrdersNotOf(OrdersNotOf(orders, user), user) == OrdersNotOf(orders, user)
  {
    if |orders| > 0 {
      OrdersNotOfIdempotent(orders[1..], user);
    }
  }

  /** The cascade removes only the deleted user's orders: another user's
      orders are exactly as they were. */
  lemma {:induction false} CascadeSparesOthers(orders: seq<Order>, user: UserId, other: UserId)
    requires other != user
    ensures OrdersOf(OrdersNotOf(orders, user), other) == OrdersOf(orders, other)
  {
    if |orders| > 0 {
      CascadeSparesOthers(orders[1..], user, other);
      if orders[0].user != user {
        assert ([orders[0]] + OrdersNotOf(orders[1..], user))[1..] == OrdersNotOf(orders[1..], user);
      }
    }
  }

  /** `DELETE /user/:id`: the caller may not delete themselves; an unknown id
      gives 404; otherwise the user goes, and so do their cart and every order
      they placed. Product stock is not given back. */
  method DeleteUser(db: Database, caller: UserId, id: UserId) returns (r: Result<string, ApiError>)
    requires db.Valid()
    modifies db
    ensures db.Valid()
    ensures db.products == old(db.products) && db.nextId == old(db.nextId)
    ensures caller == id ==> r == Failure(ApiError(403, "Không thể tự xóa chính mình"))
    ensures caller != id && IndexOf(old(db.users), UserKey, id) == -1 ==>
      r == Failure(ApiError(404, "Không tìm thấy người dùng"))
    ensures r.Failure? ==> db.users == old(db.users) && db.carts == old(db.carts) && db.orders == old(db.orders)
    ensures r.Success? <==> caller != id && IndexOf(old(db.users), UserKey, id) >= 0
    ensures r.Success? ==> forall j | 0 <= j < |db.users| :: db.users[j].id != id
    ensures var k := IndexOf(old(db.users), UserKey, id);
      caller != id && k >= 0 ==>
        && r == Success("Xóa người dùng thành công")
        && db.users == RemoveAt(old(db.users), k)
        && db.carts == old(db.carts) - {id}
        && db.orders == OrdersNotOf(old(db.orders), id)
  {
    if caller == id {
      return Failure(ApiError(403, "Không thể tự xóa chính mình"));
    }
    var k := IndexOf(db.users, UserKey, id);
    if k == -1 {
      return Failure(ApiError(404, "Không tìm thấy người dùng"));
    }
    RemoveUserKeepsUsers(db.users, k, db.nextId);
    db.users := RemoveAt(db.users, k);
    DeleteUserData(db, id);
    r := Success("Xóa người dùng thành công");
  }

  /** The cascade of `DELETE /user/:id`: the user's cart and every order they
      placed go (`deleteMany` on `user_id`); nothing else changes. */
  method DeleteUserData(db: Database, id: UserId)
    requires db.Valid()
    modifies db
    ensures db.Valid()
    ensures db.products == old(db.products) && db.users == old(db.users) && db.nextId == old(db.nextId)
    ensures db.carts == old(db.carts) - {id}
    ensures db.orders == OrdersNotOf(old(db.orders), id)
    ensures forall j | 0 <= j < |db.orders| :: db.orders[j].user != id
  {
    OrdersNotOfKeepsOrders(db.orders, id, db.nextId);
    db.carts := db.carts - {id};
    db.orders := OrdersNotOf(db.orders, id);
  }
}
