/** The admin side of the mock API: the order and customer lists with their
    filters and page/limit slicing, the dashboard's "recent" and "top"
    lists, and admin sessions, both the live ones (a signed token checked
    by `verifyToken`) and the mock `admin_mock_token_<id>_<time>` tokens.
    The lists are fixed data and are parameters here; token signing and
    checking are the parameters `sign` and `verify`. */
module AdminApi {
  import opened Common
  import opened Schema
  import Auth

  const InvalidCredentials := "E-mail ou senha inválidos"
  const InvalidToken := "Token inválido"
  const UserNotFound := "Usuário não encontrado"
  const MockTokenPrefix := "admin_mock_token_"

  const DefaultPage: int := 1
  const DefaultLimit: int := 10
  const DefaultLeading: int := 5

  datatype OrderCustomer = OrderCustomer(id: string, name: string, email: string)

  datatype AdminOrder = AdminOrder(
    id: string,
    orderNumber: string,
    customer: OrderCustomer,
    status: string,
    totalCents: int,
    paymentMethod: string,
    createdAt: string,
    updatedAt: string)

  datatype AdminCustomer = AdminCustomer(
    id: string,
    name: string,
    email: string,
    phone: Option<string>,
    ordersCount: int,
    totalSpentCents: int,
    lastOrderDate: Option<string>,
    createdAt: string)

  /** Optional list parameters; `page` and `limit` are integers. */
  datatype OrderQuery = OrderQuery(status: Option<string>, search: Option<string>, page: Option<int>, limit: Option<int>)

  datatype CustomerQuery = CustomerQuery(search: Option<string>, page: Option<int>, limit: Option<int>)

  /** One page of a list: its items, the size of the whole filtered list,
      the page number used and the number of pages. */
  datatype Page<T> = Page(items: seq<T>, total: nat, page: int, totalPages: int)

  /** The admin as the API returns it. */
  datatype AdminView = AdminView(id: string, email: string, name: string, role: string)

  // ---------------------------------------------------------------------
  // Paging
  // ---------------------------------------------------------------------

  /** `x || d` for a number: a missing value or zero gives the default. */
  function NumberOr(x: Option<int>, d: int): (r: int)
    ensures r == if x.None? || x.value == 0 then d else x.value
    ensures d != 0 ==> r != 0
  {
    if x.Some? && x.value != 0 then x.value else d
  }

  /** `Math.ceil(n / d)` for a non-zero integer divisor. */
  function CeilDiv(n: nat, d: int): int
    requires d != 0
  {
    if d > 0 then (n + d - 1) / d else -(n / -d)
  }

  /** The quotient rounded up: the least `r` with `n <= r * d` for a
      positive divisor, and the matching bound for a negative one. */
  lemma CeilDivBounds(n: nat, d: int)
    requires d != 0
    ensures d > 0 ==> (CeilDiv(n, d) - 1) * d < n <= CeilDiv(n, d) * d
    ensures d < 0 ==> CeilDiv(n, d) * d <= n < (CeilDiv(n, d) - 1) * d
  {
  }

  /** The page `page` of `filtered`, `limit` items per page, with the
      defaults page 1 and 10 items. */
  function Paginate<T>(filtered: seq<T>, page: Option<int>, limit: Option<int>): Page<T>
  {
    var p := NumberOr(page, DefaultPage);
    var l := NumberOr(limit, DefaultLimit);
    PageFrom(filtered, p, l, (p - 1) * l)
  }

  /** Page number `p` of `l` items, its first item at `start`. */
  function PageFrom<T>(filtered: seq<T>, p: int, l: int, start: int): Page<T>
    requires l != 0
  {
    Page(JsSlice(filtered, start, start + l), |filtered|, p, CeilDiv(|filtered|, l))
  }

  function Min(a: int, b: int): int
  {
    if a < b then a else b
  }

  /** The start of page `p` of `l` items: `(p - 1) * l`, never negative for
      positive page and limit; the next page starts `l` items later. */
  lemma PageStart(p: int, l: int)
    requires p >= 1 && l >= 1
    ensures (p - 1) * l >= 0
    ensures (p - 1) * l + l == p * l
  {
  }

  /** A page from a non-negative start holds the window of at most `l`
      items there, in list order, and counts the whole list. */
  lemma PageFromWindow<T>(filtered: seq<T>, p: int, l: int, start: int)
    requires start >= 0 && l >= 1
    ensures PageFrom(filtered, p, l, start).items == filtered[Min(start, |filtered|)..Min(start + l, |filtered|)]
    ensures |PageFrom(filtered, p, l, start).items| <= l
  {
  }

  /** A missing or zero page is page 1 and a missing or zero limit is 10;
      the total counts the whole filtered list. */
  lemma PaginateDefaults<T>(filtered: seq<T>, page: Option<int>, limit: Option<int>)
    ensures Paginate(filtered, page, limit).total == |filtered|
    ensures page.None? || page.value == 0 ==> Paginate(filtered, page, limit).page == 1
    ensures page.Some? && page.value != 0 ==> Paginate(filtered, page, limit).page == page.value
    ensures limit.None? || limit.value == 0 ==> NumberOr(limit, DefaultLimit) == 10
  {
  }

  /** For a positive page and limit, the page starts at the non-negative
      offset `(page - 1) * limit` and holds the items from there on, at most
      `limit` of them, in filtered order. */
  lemma PaginateWindow<T>(filtered: seq<T>, page: Option<int>, limit: Option<int>)
    ensures var p, l := NumberOr(page, DefaultPage), NumberOr(limit, DefaultLimit);
      p >= 1 && l >= 1 ==>
        var start := (p - 1) * l;
        0 <= start
        && Paginate(filtered, page, limit).items == filtered[Min(start, |filtered|)..Min(start + l, |filtered|)]
        && |Paginate(filtered, page, limit).items| <= l
  {
    var p, l := NumberOr(page, DefaultPage), NumberOr(limit, DefaultLimit);
    if p >= 1 && l >= 1 {
      PageStart(p, l);
      PageFromWindow(filtered, p, l, (p - 1) * l);
    }
  }

  /** The page count is the least number of `limit`-sized pages holding the
      filtered list, and the page count of an empty list is zero. */
  lemma PageCount<T>(filtered: seq<T>, page: Option<int>, limit: Option<int>)
    ensures var n, l := Paginate(filtered, page, limit).totalPages, NumberOr(limit, DefaultLimit);
      l >= 1 ==> n >= 0 && (n - 1) * l < |filtered| <= n * l && (|filtered| == 0 <==> n == 0)
  {
    var n, l := Paginate(filtered, page, limit).totalPages, NumberOr(limit, DefaultLimit);
    CeilDivBounds(|filtered|, l);
    if l >= 1 {
      assert n == (|filtered| + l - 1) / l;
      assert |filtered| + l - 1 >= 0;
    }
  }

  /** Pages 1 to `n`, one after another. */
  function PagesUpTo<T>(filtered: seq<T>, limit: int, n: nat): seq<T>
    requires limit >= 1
  {
    if n == 0 then [] else PagesUpTo(filtered, limit, n - 1) + Paginate(filtered, Some(n), Some(limit)).items
  }

  /** The first `n` pages are the first `n * limit` items. */
  lemma {:induction false} PagesUpToPrefix<T>(filtered: seq<T>, limit: int, n: nat)
    requires limit >= 1
    ensures PagesUpTo(filtered, limit, n) == filtered[..Min(n * limit, |filtered|)]
  {
    if n > 0 {
      PagesUpToPrefix(filtered, limit, n - 1);
      var start := (n - 1) * limit;
      PageStart(n, limit);
      assert Paginate(filtered, Some(n), Some(limit)) == PageFrom(filtered, n, limit, start);
      PageFromWindow(filtered, n, limit, start);
      var a := Min(start, |filtered|);
      var b := Min(start + limit, |filtered|);
      assert PagesUpTo(filtered, limit, n) == filtered[..a] + filtered[a..b];
      PrefixThenWindow(filtered, a, b);
    }
  }

  lemma PrefixThenWindow<T>(s: seq<T>, a: int, b: int)
    requires 0 <= a <= b <= |s|
    ensures s[..a] + s[a..b] == s[..b]
  {
  }

  /** Reading every page from 1 to the page count gives back the whole
      filtered list, each item once and in order. */
  lemma PagesCoverList<T>(filtered: seq<T>, limit: int)
    requires limit >= 1
    ensures Paginate(filtered, None, Some(limit)).totalPages >= 0
    ensures PagesUpTo(filtered, limit, Paginate(filtered, None, Some(limit)).totalPages as nat) == filtered
  {
    PageCount(filtered, None, Some(limit));
    var n := Paginate(filtered, None, Some(limit)).totalPages;
    PagesUpToPrefix(filtered, limit, n as nat);
    assert Min(n * limit, |filtered|) == |filtered|;
  }

  // ---------------------------------------------------------------------
  // getAdminOrders / getAdminCustomers
  // ---------------------------------------------------------------------

  /** The case-insensitive search of the admin lists; `lowered` is the
      search text already lower-cased. */
  predicate Mentions(field: string, lowered: string)
  {
    Includes(ToLower(field), lowered)
  }

  predicate OrderMatches(o: AdminOrder, lowered: string)
  {
    Mentions(o.orderNumber, lowered) || Mentions(o.customer.name, lowered) || Mentions(o.customer.email, lowered)
  }

  predicate CustomerMatches(c: AdminCustomer, lowered: string)
  {
    Mentions(c.name, lowered) || Mentions(c.email, lowered)
  }

  /** The status filter applies unless the status is missing, empty or `all`. */
  predicate FiltersStatus(status: Option<string>)
  {
    Truthy(status) && status.value != "all"
  }

  /** The orders the filters keep, in list order. */
  function FilterOrders(all: seq<AdminOrder>, status: Option<string>, search: Option<string>): seq<AdminOrder>
  {
    var byStatus := if FiltersStatus(status) then Filter(all, (o: AdminOrder) => o.status == status.value) else all;
    if Truthy(search) then
      var lowered := ToLower(search.value);
      Filter(byStatus, (o: AdminOrder) => OrderMatches(o, lowered))
    else byStatus
  }

  /** Whether one order passes both filters. */
  predicate KeepsOrder(o: AdminOrder, status: Option<string>, search: Option<string>)
  {
    (!FiltersStatus(status) || o.status == status.value)
    && (!Truthy(search) || OrderMatches(o, ToLower(search.value)))
  }

  /** The two filters in a row keep exactly the orders passing both, in
      list order; with no status (or `all`) and no search, every order. */
  lemma FilterOrdersExactly(all: seq<AdminOrder>, status: Option<string>, search: Option<string>)
    ensures FilterOrders(all, status, search) == Filter(all, (o: AdminOrder) => KeepsOrder(o, status, search))
    ensures !FiltersStatus(status) && !Truthy(search) ==> FilterOrders(all, status, search) == all
  {
    var keep := (o: AdminOrder) => KeepsOrder(o, status, search);
    if FiltersStatus(status) {
      var byStatus := (o: AdminOrder) => o.status == status.value;
      if Truthy(search) {
        var lowered := ToLower(search.value);
        FilterFilter(all, byStatus, (o: AdminOrder) => OrderMatches(o, lowered), keep);
      } else {
        FilterCongruent(all, byStatus, keep);
      }
    } else {
      if Truthy(search) {
        var lowered := ToLower(search.value);
        FilterCongruent(all, (o: AdminOrder) => OrderMatches(o, lowered), keep);
      } else {
        FilterAll(all, keep);
      }
    }
  }

  /** The search ignores letter case: two searches that lower-case alike
      give the same orders. */
  lemma FilterOrdersIgnoresCase(all: seq<AdminOrder>, status: Option<string>, s1: string, s2: string)
    requires ToLower(s1) == ToLower(s2)
    ensures FilterOrders(all, status, Some(s1)) == FilterOrders(all, status, Some(s2))
  {
    assert |s1| == |ToLower(s1)| == |s2|;
  }

  /** `getAdminOrders`. */
  function GetAdminOrders(all: seq<AdminOrder>, q: OrderQuery): Page<AdminOrder>
  {
    Paginate(FilterOrders(all, q.status, q.search), q.page, q.limit)
  }

  /** Every order on a page passes the filters and comes from the list, and
      the total counts all the orders that pass. */
  lemma GetAdminOrdersSound(all: seq<AdminOrder>, q: OrderQuery)
    ensures var r := GetAdminOrders(all, q);
      (forall k :: 0 <= k < |r.items| ==> r.items[k] in all && KeepsOrder(r.items[k], q.status, q.search))
      && r.total == |Filter(all, (o: AdminOrder) => KeepsOrder(o, q.status, q.search))|
  {
    FilterOrdersExactly(all, q.status, q.search);
  }

  /** The customers the search keeps, in list order. */
  function FilterCustomers(all: seq<AdminCustomer>, search: Option<string>): (r: seq<AdminCustomer>)
    ensures !Truthy(search) ==> r == all
    ensures Truthy(search) ==>
      (forall k :: 0 <= k < |r| ==> r[k] in all && CustomerMatches(r[k], ToLower(search.value)))
      && (forall k :: 0 <= k < |all| && CustomerMatches(all[k], ToLower(search.value)) ==> all[k] in r)
  {
    if Truthy(search) then
      var lowered := ToLower(search.value);
      Filter(all, (c: AdminCustomer) => CustomerMatches(c, lowered))
    else all
  }

  /** `getAdminCustomers`: the same paging over the searched customers. */
  function GetAdminCustomers(all: seq<AdminCustomer>, q: CustomerQuery): Page<AdminCustomer>
  {
    Paginate(FilterCustomers(all, q.search), q.page, q.limit)
  }

  /** Every customer on a page comes from the list and matches the search,
      and the total counts all the customers the search keeps. */
  lemma GetAdminCustomersSound(all: seq<AdminCustomer>, q: CustomerQuery)
    ensures var r := GetAdminCustomers(all, q);
      r.total == |FilterCustomers(all, q.search)|
      && forall k :: 0 <= k < |r.items| ==>
           r.items[k] in all && (Truthy(q.search) ==> CustomerMatches(r.items[k], ToLower(q.search.value)))
  {
    var kept := FilterCustomers(all, q.search);
    var r := GetAdminCustomers(all, q);
    forall k | 0 <= k < |r.items|
      ensures r.items[k] in all && (Truthy(q.search) ==> CustomerMatches(r.items[k], ToLower(q.search.value)))
    {
      assert r.items[k] in kept;
    }
  }

  // ---------------------------------------------------------------------
  // getRecentOrders / getTopProducts
  // ---------------------------------------------------------------------

  datatype RecentOrder = RecentOrder(id: string, orderNumber: string, customerName: string, totalCents: int, status: string, createdAt: string)

  datatype TopProduct = TopProduct(id: string, name: string, sku: string, image: string, salesCount: int, revenueCents: int)

  /** `list.slice(0, limit)` with `limit` defaulting to 5 when not passed
      (an explicit 0 is kept). A non-negative limit keeps that many leading
      items; a negative one drops that many trailing items. */
  function Leading<T>(list: seq<T>, limit: Option<int>): (r: seq<T>)
    ensures limit.None? ==> r == list[..Min(DefaultLeading, |list|)]
    ensures limit.Some? && limit.value >= 0 ==> r == list[..Min(limit.value, |list|)]
    ensures limit.Some? && limit.value < 0 ==> r == list[..if |list| + limit.value < 0 then 0 else |list| + limit.value]
  {
    JsSlice(list, 0, if limit.None? then DefaultLeading else limit.value)
  }

  // ---------------------------------------------------------------------
  // Live admin sessions (adminLogin / getAdminUser with real auth)
  // ---------------------------------------------------------------------

  /** `getAdminUser`: the admin named by a valid admin token; a missing or
      empty role reads as `admin`. */
  function GetAdminUser(token: string, verify: string -> Option<Auth.AuthUser>): (r: Result<AdminView, string>)
    ensures r.Ok? <==> verify(token).Some? && verify(token).value.userType == Auth.AdminType
    ensures r.Err? ==> r.error == InvalidToken
    ensures r.Ok? ==> r.value.id == verify(token).value.id && r.value.email == verify(token).value.email
                      && r.value.role != ""
    ensures r.Ok? ==> r.value.name == verify(token).value.name
                      && r.value.role == Auth.RoleOrDefault(verify(token).value.role)
  {
    match verify(token)
    case None => Err(InvalidToken)
    case Some(u) =>
      if u.userType != Auth.AdminType then Err(InvalidToken)
      else Ok(AdminView(u.id, u.email, u.name, Auth.RoleOrDefault(u.role)))
  }

  /** `adminLogin` with real authentication: the database login, reshaped. */
  method AdminLogin(db: Database, email: string, password: string,
                    passwordMatches: (string, string) -> bool, sign: Auth.AuthUser -> string, now: Timestamp)
    returns (r: Result<(string, AdminView), string>)
    requires db.Valid()
    modifies db`adminUsers
    ensures db.Valid()
    ensures !db.available ==> r == Err(Auth.Unavailable) && db.adminUsers == old(db.adminUsers)
    ensures db.available ==>
      match Auth.AdminLogin(old(db.adminUsers), email, password, passwordMatches, sign, now)
      case Err(e) => r == Err(e) && db.adminUsers == old(db.adminUsers)
      case Ok((resp, rows)) =>
        db.adminUsers == rows && resp.user.role.Some?
        && r == Ok((resp.token, AdminView(resp.user.id, resp.user.email, resp.user.name, resp.user.role.value)))
  {
    var login := Auth.LoginAdmin(db, email, password, passwordMatches, sign, now);
    match login
    case Err(e) =>
      r := Err(e);
    case Ok(resp) =>
      var role := if resp.user.role.Some? then resp.user.role.value else "";
      r := Ok((resp.token, AdminView(resp.user.id, resp.user.email, resp.user.name, role)));
  }

  /** A token issued by a successful admin login, checked by a `verify`
      that accepts what `sign` produced, names the same admin with the same
      role (a stored empty role reads back as `admin`). */
  lemma LiveSessionRoundTrip(rows: seq<AdminUser>, email: string, password: string,
                             passwordMatches: (string, string) -> bool, sign: Auth.AuthUser -> string, now: Timestamp,
                             verify: string -> Option<Auth.AuthUser>)
    requires Auth.AdminLogin(rows, email, password, passwordMatches, sign, now).Ok?
    requires var resp := Auth.AdminLogin(rows, email, password, passwordMatches, sign, now).value.0;
      verify(resp.token) == Some(resp.user)
    ensures var resp := Auth.AdminLogin(rows, email, password, passwordMatches, sign, now).value.0;
      exists i :: 0 <= i < |rows| && rows[i].email == ToLower(email)
        && GetAdminUser(resp.token, verify)
           == Ok(AdminView(rows[i].id, rows[i].email, rows[i].name, if rows[i].role == "" then "admin" else rows[i].role))
  {
    Auth.AdminLoginSuccess(rows, email, password, passwordMatches, sign, now);
  }

  // ---------------------------------------------------------------------
  // Mock admin sessions (adminLogin / getAdminUser without real auth)
  // ---------------------------------------------------------------------

  /** A built-in mock admin, with its clear-text password. */
  datatype MockAdmin = MockAdmin(id: string, email: string, password: string, name: string, role: string)

  function ViewOf(a: MockAdmin): AdminView
  {
    AdminView(a.id, a.email, a.name, a.role)
  }

  /** The mock token for admin `id` issued at `now` milliseconds. */
  function MockToken(id: string, now: nat): string
  {
    MockTokenPrefix + id + "_" + NatToString(now)
  }

  /** The mock `adminLogin`: exact email and password match, no lower-casing. */
  function MockAdminLogin(admins: seq<MockAdmin>, email: string, password: string, now: nat)
    : (r: Result<(string, AdminView), string>)
    ensures r.Err? <==> forall k :: 0 <= k < |admins| ==> !(admins[k].email == email && admins[k].password == password)
    ensures r.Err? ==> r.error == InvalidCredentials
    ensures r.Ok? ==>
      exists i :: 0 <= i < |admins| && admins[i].email == email && admins[i].password == password
        && (forall k :: 0 <= k < i ==> !(admins[k].email == email && admins[k].password == password))
        && r.value == (MockToken(admins[i].id, now), ViewOf(admins[i]))
  {
    match FindFirst(admins, (a: MockAdmin) => a.email == email && a.password == password)
    case None => Err(InvalidCredentials)
    case Some(i) => Ok((MockToken(admins[i].id, now), ViewOf(admins[i])))
  }

  /** `token.split('_')[3]`, absent when there are fewer than four parts. */
  function TokenAdminId(token: string): Option<string>
  {
    var parts := Split(token, '_');
    if |parts| > 3 then Some(parts[3]) else None
  }

  /** The mock `getAdminUser`. */
  function MockGetAdminUser(admins: seq<MockAdmin>, token: string): (r: Result<AdminView, string>)
    ensures r == Err(InvalidToken) <==> !(MockTokenPrefix <= token)
    ensures MockTokenPrefix <= token ==>
      (r == Err(UserNotFound) <==>
         TokenAdminId(token).None? || forall k :: 0 <= k < |admins| ==> admins[k].id != TokenAdminId(token).value)
    ensures r.Err? ==> r.error == InvalidToken || r.error == UserNotFound
    ensures r.Ok? ==> exists k :: 0 <= k < |admins| && r.value == ViewOf(admins[k])
                                  && TokenAdminId(token) == Some(admins[k].id)
                                  && forall j :: 0 <= j < k ==> admins[j].id != admins[k].id
  {
    if !(MockTokenPrefix <= token) then Err(InvalidToken)
    else match TokenAdminId(token)
      case None => Err(UserNotFound)
      case Some(id) =>
        match FindFirst(admins, (a: MockAdmin) => a.id == id)
        case None => Err(UserNotFound)
        case Some(i) => Ok(ViewOf(admins[i]))
  }

  /** A token with the mock prefix splits into `admin`, `mock`, `token` and
      the parts of what follows the prefix. */
  lemma PrefixedParts(tail: string)
    ensures Split(MockTokenPrefix + tail, '_') == ["admin", "mock", "token"] + Split(tail, '_')
    ensures TokenAdminId(MockTokenPrefix + tail) == Some(Split(tail, '_')[0])
  {
    var t3 := "token" + "_" + tail;
    var t2 := "mock" + "_" + t3;
    assert MockTokenPrefix + tail == "admin" + "_" + t2;
    SplitSegment("token", '_', tail);
    SplitSegment("mock", '_', t3);
    SplitSegment("admin", '_', t2);
  }

  /** A token with the mock prefix always has a fourth `_`-separated part. */
  lemma MockPrefixGivesFourParts(token: string)
    requires MockTokenPrefix <= token
    ensures TokenAdminId(token).Some?
  {
    var rest := token[|MockTokenPrefix|..];
    assert token == MockTokenPrefix + rest;
    PrefixedParts(rest);
  }

  /** The admin id is read back from a mock token when it contains no `_`. */
  lemma MockTokenAdminId(id: string, now: nat)
    requires '_' !in id
    ensures TokenAdminId(MockToken(id, now)) == Some(id)
  {
    var tail := id + "_" + NatToString(now);
    assert MockToken(id, now) == MockTokenPrefix + tail;
    PrefixedParts(tail);
    SplitSegment(id, '_', NatToString(now));
  }

  /** An id with `_` in it is cut at its first `_`. */
  lemma MockTokenCutsId(head: string, rest: string, now: nat)
    requires '_' !in head
    ensures TokenAdminId(MockToken(head + "_" + rest, now)) == Some(head)
  {
    var after := rest + "_" + NatToString(now);
    var tail := head + "_" + after;
    assert MockToken(head + "_" + rest, now) == MockTokenPrefix + tail;
    PrefixedParts(tail);
    SplitSegment(head, '_', after);
  }

  /** So admin `a_1` reads back as admin `a`. */
  lemma MockTokenUnderscoreExample(now: nat)
    ensures TokenAdminId(MockToken("a_1", now)) == Some("a")
  {
    assert "a" + "_" + "1" == "a_1";
    MockTokenCutsId("a", "1", now);
  }

  ghost predicate MockIdsUnique(admins: seq<MockAdmin>)
  {
    forall i, j :: 0 <= i < j < |admins| ==> admins[i].id != admins[j].id
  }

  /** A mock login's token resolves back to the admin who logged in, when
      admin ids are unique and free of `_`. */
  lemma MockSessionRoundTrip(admins: seq<MockAdmin>, email: string, password: string, now: nat)
    requires MockIdsUnique(admins)
    requires forall k :: 0 <= k < |admins| ==> '_' !in admins[k].id
    requires MockAdminLogin(admins, email, password, now).Ok?
    ensures var (token, user) := MockAdminLogin(admins, email, password, now).value;
      MockGetAdminUser(admins, token) == Ok(user)
  {
    var i := FindFirst(admins, (a: MockAdmin) => a.email == email && a.password == password).value;
    var token := MockToken(admins[i].id, now);
    MockTokenAdminId(admins[i].id, now);
    assert MockTokenPrefix <= token;
    var j := FindFirst(admins, (a: MockAdmin) => a.id == admins[i].id);
    assert j == Some(i);
  }
}
