/** The authentication service: customer registration and login, admin
    login, password reset by single-use token, the bearer-header helper,
    profile reads and updates, and admin creation.

    Password hashing, JWT signing and random token generation are outside
    the model: a new hash or token is a parameter, `passwordMatches` stands
    for the hash comparison and `sign` for JWT signing. Each operation that
    writes is a method on the database, proved against a pure function
    that gives the reply and the new table(s). */
module Auth {
  import opened Common
  import opened Schema

  const Unavailable := "Serviço temporariamente indisponível. Tente novamente mais tarde."
  const EmailTaken := "Este e-mail já está cadastrado"
  const InvalidCredentials := "E-mail ou senha inválidos"
  const InvalidToken := "Token inválido ou expirado"
  const TokenUsed := "Este link já foi utilizado"
  const TokenExpired := "Token expirado. Solicite um novo link."
  const UserNotFound := "Usuário não encontrado"
  /** Stands for the database error raised when an insert repeats an admin
      email (the unique column); the driver's wording is not modelled. */
  const AdminEmailTaken := "admin_users.email must be unique"

  const ResetWindowMs: int := 60 * 60 * 1000
  const BearerPrefix := "Bearer "
  const DefaultAdminRole := "admin"

  datatype UserType = CustomerType | AdminType

  /** The claims a session token carries. */
  datatype AuthUser = AuthUser(id: Id, email: string, name: string, userType: UserType, role: Option<string>)

  datatype AuthResponse = AuthResponse(token: string, user: AuthUser)

  datatype Registration = Registration(name: string, email: string, password: string, phone: Option<string>)

  /** A customer as returned to clients: every column but the password hash. */
  datatype Profile = Profile(
    id: Id, email: string, name: string, phone: Option<string>, cpf: Option<string>,
    createdAt: Timestamp, updatedAt: Timestamp)

  /** Optional profile fields; an absent one is not written. */
  datatype ProfileChanges = ProfileChanges(name: Option<string>, phone: Option<string>, cpf: Option<string>)

  // ---------------------------------------------------------------------
  // registerCustomer / loginCustomer
  // ---------------------------------------------------------------------

  function CustomerSession(c: Customer, sign: AuthUser -> string): AuthResponse
  {
    var u := AuthUser(c.id, c.email, c.name, CustomerType, None);
    AuthResponse(sign(u), u)
  }

  /** Reply and new customers table of a registration; `passwordHash` is the
      hash of `data.password`. */
  function Register(rows: seq<Customer>, data: Registration, newId: Id, passwordHash: string, now: Timestamp,
                    sign: AuthUser -> string): Result<(AuthResponse, seq<Customer>), string>
  {
    var email := ToLower(data.email);
    if CustomerByEmail(rows, email).Some? then Err(EmailTaken)
    else
      var c := Customer(newId, email, passwordHash, data.name, data.phone, None, now, now);
      Ok((CustomerSession(c, sign), rows + [c]))
  }

  /** Registration fails exactly when the lower-cased email is already stored;
      otherwise it appends one customer, whose email is stored lower-cased. */
  lemma RegisterOutcome(rows: seq<Customer>, data: Registration, newId: Id, passwordHash: string, now: Timestamp,
                        sign: AuthUser -> string)
    ensures var r := Register(rows, data, newId, passwordHash, now, sign);
      (r.Err? <==> exists k :: 0 <= k < |rows| && rows[k].email == ToLower(data.email))
      && (r.Err? ==> r.error == EmailTaken)
      && (r.Ok? ==>
            |r.value.1| == |rows| + 1 && r.value.1[..|rows|] == rows
            && r.value.1[|rows|].email == ToLower(data.email)
            && r.value.1[|rows|].passwordHash == passwordHash
            && r.value.0.user == AuthUser(newId, ToLower(data.email), data.name, CustomerType, None))
  {
    if CustomerByEmail(rows, ToLower(data.email)).None? {
      var r := Register(rows, data, newId, passwordHash, now, sign);
      assert r.value.1[..|rows|] == rows;
    }
  }

  /** After a registration, registering the same email in any letter case fails. */
  lemma RegisterTwiceFails(rows: seq<Customer>, data: Registration, newId: Id, passwordHash: string, now: Timestamp,
                           sign: AuthUser -> string, again: Registration, newId2: Id, passwordHash2: string, now2: Timestamp)
    requires Register(rows, data, newId, passwordHash, now, sign).Ok?
    requires ToLower(again.email) == ToLower(data.email)
    ensures Register(Register(rows, data, newId, passwordHash, now, sign).value.1, again, newId2, passwordHash2, now2, sign)
            == Err(EmailTaken)
  {
    var rows' := Register(rows, data, newId, passwordHash, now, sign).value.1;
    assert rows'[|rows|].email == ToLower(again.email);
  }

  /** Registration keeps ids and emails unique when the new id is unused. */
  lemma RegisterKeepsKeys(rows: seq<Customer>, data: Registration, newId: Id, passwordHash: string, now: Timestamp,
                          sign: AuthUser -> string)
    requires CustomersKeyed(rows)
    requires forall k :: 0 <= k < |rows| ==> rows[k].id != newId
    requires Register(rows, data, newId, passwordHash, now, sign).Ok?
    ensures CustomersKeyed(Register(rows, data, newId, passwordHash, now, sign).value.1)
  {
    assert CustomerByEmail(rows, ToLower(data.email)).None?;
  }

  /** `registerCustomer`. The welcome email is sent without waiting and its
      failure is ignored, so it has no effect here. */
  method RegisterCustomer(db: Database, data: Registration, newId: Id, passwordHash: string, now: Timestamp,
                          sign: AuthUser -> string) returns (r: Result<AuthResponse, string>)
    requires db.Valid()
    requires forall k :: 0 <= k < |db.customers| ==> db.customers[k].id != newId
    modifies db`customers
    ensures db.Valid()
    ensures !db.available ==> r == Err(Unavailable) && db.customers == old(db.customers)
    ensures db.available ==>
      match Register(old(db.customers), data, newId, passwordHash, now, sign)
      case Err(e) => r == Err(e) && db.customers == old(db.customers)
      case Ok((resp, rows)) => r == Ok(resp) && db.customers == rows
  {
    if !db.available {
      return Err(Unavailable);
    }
    var email := ToLower(data.email);
    if CustomerByEmail(db.customers, email).Some? {
      return Err(EmailTaken);
    }
    RegisterKeepsKeys(db.customers, data, newId, passwordHash, now, sign);
    var c := Customer(newId, email, passwordHash, data.name, data.phone, None, now, now);
    db.customers := db.customers + [c];
    return Ok(CustomerSession(c, sign));
  }

  /** Reply of a customer login. */
  function CustomerLogin(rows: seq<Customer>, email: string, password: string,
                         passwordMatches: (string, string) -> bool, sign: AuthUser -> string): Result<AuthResponse, string>
  {
    match CustomerByEmail(rows, ToLower(email))
    case None => Err(InvalidCredentials)
    case Some(i) =>
      if !passwordMatches(password, rows[i].passwordHash) then Err(InvalidCredentials)
      else Ok(CustomerSession(rows[i], sign))
  }

  /** Login succeeds exactly for a stored email with a matching password, and
      an unknown email and a wrong password fail with the same message. */
  lemma CustomerLoginOutcome(rows: seq<Customer>, email: string, password: string,
                             passwordMatches: (string, string) -> bool, sign: AuthUser -> string)
    requires CustomersKeyed(rows)
    ensures var r := CustomerLogin(rows, email, password, passwordMatches, sign);
      (r.Err? ==> r.error == InvalidCredentials)
      && (r.Ok? <==> exists k :: 0 <= k < |rows| && rows[k].email == ToLower(email)
                                 && passwordMatches(password, rows[k].passwordHash))
      && (r.Ok? ==> r.value.user.email == ToLower(email) && r.value.user.userType == CustomerType)
  {
    var r := CustomerLogin(rows, email, password, passwordMatches, sign);
    if exists k :: 0 <= k < |rows| && rows[k].email == ToLower(email) && passwordMatches(password, rows[k].passwordHash) {
      var k :| 0 <= k < |rows| && rows[k].email == ToLower(email) && passwordMatches(password, rows[k].passwordHash);
      var i := CustomerByEmail(rows, ToLower(email)).value;
      assert i == k;
    }
  }

  /** A customer who has just registered can log in with the same password,
      whatever the letter case of the email typed. */
  lemma RegisterThenLogin(rows: seq<Customer>, data: Registration, newId: Id, passwordHash: string, now: Timestamp,
                          sign: AuthUser -> string, email: string, passwordMatches: (string, string) -> bool)
    requires CustomersKeyed(rows)
    requires forall k :: 0 <= k < |rows| ==> rows[k].id != newId
    requires Register(rows, data, newId, passwordHash, now, sign).Ok?
    requires ToLower(email) == ToLower(data.email)
    requires passwordMatches(data.password, passwordHash)
    ensures var rows' := Register(rows, data, newId, passwordHash, now, sign).value.1;
      CustomerLogin(rows', email, data.password, passwordMatches, sign).Ok?
  {
    var rows' := Register(rows, data, newId, passwordHash, now, sign).value.1;
    RegisterKeepsKeys(rows, data, newId, passwordHash, now, sign);
    CustomerLoginOutcome(rows', email, data.password, passwordMatches, sign);
    assert rows'[|rows|].email == ToLower(email);
  }

  /** `loginCustomer`. */
  method LoginCustomer(db: Database, email: string, password: string,
                       passwordMatches: (string, string) -> bool, sign: AuthUser -> string)
    returns (r: Result<AuthResponse, string>)
    ensures !db.available ==> r == Err(Unavailable)
    ensures db.available ==> r == CustomerLogin(db.customers, email, password, passwordMatches, sign)
  {
    if !db.available {
      return Err(Unavailable);
    }
    var found := CustomerByEmail(db.customers, ToLower(email));
    if found.None? {
      return Err(InvalidCredentials);
    }
    var customer := db.customers[found.value];
    if !passwordMatches(password, customer.passwordHash) {
      return Err(InvalidCredentials);
    }
    return Ok(CustomerSession(customer, sign));
  }

  // ---------------------------------------------------------------------
  // loginAdmin / createAdminUser
  // ---------------------------------------------------------------------

  function AdminClaims(a: AdminUser): AuthUser
  {
    AuthUser(a.id, a.email, a.name, AdminType, Some(a.role))
  }

  /** Reply and new admin table of an admin login. */
  function AdminLogin(rows: seq<AdminUser>, email: string, password: string,
                      passwordMatches: (string, string) -> bool, sign: AuthUser -> string, now: Timestamp)
    : Result<(AuthResponse, seq<AdminUser>), string>
  {
    match AdminByEmail(rows, ToLower(email))
    case None => Err(InvalidCredentials)
    case Some(i) =>
      if !rows[i].active then Err(InvalidCredentials)
      else if !passwordMatches(password, rows[i].passwordHash) then Err(InvalidCredentials)
      else Ok((AuthResponse(sign(AdminClaims(rows[i])), AdminClaims(rows[i])),
               rows[i := rows[i].(lastLogin := Some(now))]))
  }

  /** A missing or inactive admin is refused, even with the right password,
      and with the same message as a wrong password. */
  lemma AdminLoginRefusesInactive(rows: seq<AdminUser>, email: string, password: string,
                                  passwordMatches: (string, string) -> bool, sign: AuthUser -> string, now: Timestamp)
    requires AdminsKeyed(rows)
    requires forall k :: 0 <= k < |rows| && rows[k].email == ToLower(email) ==> !rows[k].active
    ensures AdminLogin(rows, email, password, passwordMatches, sign, now) == Err(InvalidCredentials)
  {
  }

  /** A successful admin login changes only that admin's last-login time, and
      its token carries the admin's role. */
  lemma AdminLoginSuccess(rows: seq<AdminUser>, email: string, password: string,
                          passwordMatches: (string, string) -> bool, sign: AuthUser -> string, now: Timestamp)
    requires AdminLogin(rows, email, password, passwordMatches, sign, now).Ok?
    ensures var (resp, rows') := AdminLogin(rows, email, password, passwordMatches, sign, now).value;
      |rows'| == |rows|
      && exists i :: 0 <= i < |rows| && rows[i].email == ToLower(email) && rows[i].active
           && passwordMatches(password, rows[i].passwordHash)
           && rows'[i] == rows[i].(lastLogin := Some(now))
           && (forall k :: 0 <= k < |rows| && k != i ==> rows'[k] == rows[k])
           && resp.user == AuthUser(rows[i].id, rows[i].email, rows[i].name, AdminType, Some(rows[i].role))
           && resp.token == sign(resp.user)
  {
  }

  /** `loginAdmin`. */
  method LoginAdmin(db: Database, email: string, password: string,
                    passwordMatches: (string, string) -> bool, sign: AuthUser -> string, now: Timestamp)
    returns (r: Result<AuthResponse, string>)
    requires db.Valid()
    modifies db`adminUsers
    ensures db.Valid()
    ensures !db.available ==> r == Err(Unavailable) && db.adminUsers == old(db.adminUsers)
    ensures db.available ==>
      match AdminLogin(old(db.adminUsers), email, password, passwordMatches, sign, now)
      case Err(e) => r == Err(e) && db.adminUsers == old(db.adminUsers)
      case Ok((resp, rows)) => r == Ok(resp) && db.adminUsers == rows
  {
    if !db.available {
      return Err(Unavailable);
    }
    var found := AdminByEmail(db.adminUsers, ToLower(email));
    if found.None? || !db.adminUsers[found.value].active {
      return Err(InvalidCredentials);
    }
    var i := found.value;
    var admin := db.adminUsers[i];
    if !passwordMatches(password, admin.passwordHash) {
      return Err(InvalidCredentials);
    }
    db.adminUsers := db.adminUsers[i := admin.(lastLogin := Some(now))];
    var claims := AdminClaims(admin);
    return Ok(AuthResponse(sign(claims), claims));
  }

  /** The role given, or `admin` when none is given. */
  function RoleOrDefault(role: Option<string>): string
  {
    if role.Some? && role.value != "" then role.value else DefaultAdminRole
  }

  /** New admin table after creating an admin; a repeated email is refused by
      the table's unique constraint. */
  function CreateAdmin(rows: seq<AdminUser>, name: string, email: string, passwordHash: string, role: Option<string>,
                       newId: Id, now: Timestamp): Result<seq<AdminUser>, string>
  {
    if AdminByEmail(rows, ToLower(email)).Some? then Err(AdminEmailTaken)
    else Ok(rows + [AdminUser(newId, ToLower(email), passwordHash, name, RoleOrDefault(role), true, now, None)])
  }

  /** The new admin is active, stored lower-cased, and has the default role
      `admin` unless one is given. */
  lemma CreateAdminDefaults(rows: seq<AdminUser>, name: string, email: string, passwordHash: string, role: Option<string>,
                            newId: Id, now: Timestamp)
    requires CreateAdmin(rows, name, email, passwordHash, role, newId, now).Ok?
    ensures var rows' := CreateAdmin(rows, name, email, passwordHash, role, newId, now).value;
      |rows'| == |rows| + 1 && rows'[..|rows|] == rows
      && rows'[|rows|].email == ToLower(email) && rows'[|rows|].active
      && (role.None? ==> rows'[|rows|].role == "admin")
      && (role.Some? && role.value != "" ==> rows'[|rows|].role == role.value)
  {
    var rows' := CreateAdmin(rows, name, email, passwordHash, role, newId, now).value;
    assert rows'[..|rows|] == rows;
  }

  /** An admin just created can log in, in any letter case of the email,
      and its session carries the role it was created with. */
  lemma CreateAdminThenLogin(rows: seq<AdminUser>, name: string, email: string, password: string, passwordHash: string,
                             role: Option<string>, newId: Id, now: Timestamp,
                             typed: string, passwordMatches: (string, string) -> bool, sign: AuthUser -> string, later: Timestamp)
    requires AdminsKeyed(rows)
    requires CreateAdmin(rows, name, email, passwordHash, role, newId, now).Ok?
    requires ToLower(typed) == ToLower(email)
    requires passwordMatches(password, passwordHash)
    ensures var rows' := CreateAdmin(rows, name, email, passwordHash, role, newId, now).value;
      var r := AdminLogin(rows', typed, password, passwordMatches, sign, later);
      r.Ok? && r.value.0.user.role == Some(RoleOrDefault(role))
  {
    var rows' := CreateAdmin(rows, name, email, passwordHash, role, newId, now).value;
    assert AdminByEmail(rows, ToLower(email)).None?;
    var i := AdminByEmail(rows', ToLower(typed));
    assert rows'[|rows|].email == ToLower(typed);
    assert i.Some? && i.value == |rows|;
  }

  /** `createAdminUser`. */
  method CreateAdminUser(db: Database, name: string, email: string, passwordHash: string, role: Option<string>,
                         newId: Id, now: Timestamp) returns (r: Result<(), string>)
    requires db.Valid()
    requires forall k :: 0 <= k < |db.adminUsers| ==> db.adminUsers[k].id != newId
    modifies db`adminUsers
    ensures db.Valid()
    ensures !db.available ==> r == Err(Unavailable) && db.adminUsers == old(db.adminUsers)
    ensures db.available ==>
      match CreateAdmin(old(db.adminUsers), name, email, passwordHash, role, newId, now)
      case Err(e) => r == Err(e) && db.adminUsers == old(db.adminUsers)
      case Ok(rows) => r == Ok(()) && db.adminUsers == rows
  {
    if !db.available {
      return Err(Unavailable);
    }
    if AdminByEmail(db.adminUsers, ToLower(email)).Some? {
      return Err(AdminEmailTaken);
    }
    db.adminUsers := db.adminUsers + [AdminUser(newId, ToLower(email), passwordHash, name, RoleOrDefault(role), true, now, None)];
    return Ok(());
  }

  // ---------------------------------------------------------------------
  // requestPasswordReset / resetPassword
  // ---------------------------------------------------------------------

  /** Reset table after a reset request: one record valid for an hour when
      the email belongs to a customer, nothing otherwise. */
  function ResetRequest(customers: seq<Customer>, resets: seq<PasswordReset>, email: string,
                        newId: Id, token: string, now: Timestamp): seq<PasswordReset>
  {
    if CustomerByEmail(customers, ToLower(email)).None? then resets
    else resets + [PasswordReset(newId, ToLower(email), token, now + ResetWindowMs, None, now)]
  }

  /** An unknown email adds nothing; a known one adds exactly one unused
      record for the lower-cased email, expiring an hour later. */
  lemma ResetRequestOutcome(customers: seq<Customer>, resets: seq<PasswordReset>, email: string,
                            newId: Id, token: string, now: Timestamp)
    ensures var resets' := ResetRequest(customers, resets, email, newId, token, now);
      ((forall k :: 0 <= k < |customers| ==> customers[k].email != ToLower(email)) ==> resets' == resets)
      && ((exists k :: 0 <= k < |customers| && customers[k].email == ToLower(email)) ==>
            resets' == resets + [PasswordReset(newId, ToLower(email), token, now + ResetWindowMs, None, now)])
  {
  }

  /** `requestPasswordReset`. `mailError` is the failure of the reset email,
      if any: it is raised after the record is stored. */
  method RequestPasswordReset(db: Database, email: string, newId: Id, token: string, mailError: Option<string>,
                              now: Timestamp) returns (r: Result<(), string>)
    requires db.Valid()
    requires forall k :: 0 <= k < |db.passwordResets| ==> db.passwordResets[k].id != newId && db.passwordResets[k].token != token
    modifies db`passwordResets
    ensures db.Valid()
    ensures !db.available ==> r == Err(Unavailable) && db.passwordResets == old(db.passwordResets)
    ensures db.available ==> db.passwordResets == ResetRequest(db.customers, old(db.passwordResets), email, newId, token, now)
    ensures db.available ==>
      r == if CustomerByEmail(db.customers, ToLower(email)).Some? && mailError.Some? then Err(mailError.value) else Ok(())
  {
    if !db.available {
      return Err(Unavailable);
    }
    if CustomerByEmail(db.customers, ToLower(email)).None? {
      return Ok(());
    }
    db.passwordResets := db.passwordResets + [PasswordReset(newId, ToLower(email), token, now + ResetWindowMs, None, now)];
    if mailError.Some? {
      return Err(mailError.value);
    }
    return Ok(());
  }

  /** New customers and reset tables after using a reset token. */
  function Reset(customers: seq<Customer>, resets: seq<PasswordReset>, token: string, newHash: string, now: Timestamp)
    : Result<(seq<Customer>, seq<PasswordReset>), string>
  {
    match ResetByToken(resets, token)
    case None => Err(InvalidToken)
    case Some(k) =>
      if resets[k].usedAt.Some? then Err(TokenUsed)
      else if now > resets[k].expiresAt then Err(TokenExpired)
      else match CustomerByEmail(customers, resets[k].email)
        case None => Err(UserNotFound)
        case Some(c) =>
          Ok((customers[c := customers[c].(passwordHash := newHash, updatedAt := now)],
              resets[k := resets[k].(usedAt := Some(now))]))
  }

  /** The checks come in a fixed order: unknown token, then a used one, then
      an expired one, then a missing customer; only a token passing all four
      is accepted. */
  lemma ResetCheckOrder(customers: seq<Customer>, resets: seq<PasswordReset>, token: string, newHash: string, now: Timestamp)
    requires ResetsKeyed(resets)
    ensures var r := Reset(customers, resets, token, newHash, now);
      ((forall k :: 0 <= k < |resets| ==> resets[k].token != token) <==> r == Err(InvalidToken))
      && (forall k :: 0 <= k < |resets| && resets[k].token == token ==>
            (resets[k].usedAt.Some? <==> r == Err(TokenUsed))
            && (resets[k].usedAt.None? && now > resets[k].expiresAt <==> r == Err(TokenExpired))
            && (resets[k].usedAt.None? && now <= resets[k].expiresAt
                && (forall c :: 0 <= c < |customers| ==> customers[c].email != resets[k].email)
                <==> r == Err(UserNotFound))
            && (r.Ok? <==> resets[k].usedAt.None? && now <= resets[k].expiresAt
                           && exists c :: 0 <= c < |customers| && customers[c].email == resets[k].email))
  {
    forall k | 0 <= k < |resets| && resets[k].token == token
      ensures ResetByToken(resets, token) == Some(k)
    {
    }
  }

  /** A reset changes one customer, only in password hash and update time,
      and marks the token used. */
  lemma ResetChangesOnlyThatCustomer(customers: seq<Customer>, resets: seq<PasswordReset>, token: string,
                                     newHash: string, now: Timestamp)
    requires Reset(customers, resets, token, newHash, now).Ok?
    ensures var (customers', resets') := Reset(customers, resets, token, newHash, now).value;
      |customers'| == |customers| && |resets'| == |resets|
      && (exists c, k :: 0 <= c < |customers| && 0 <= k < |resets|
            && resets[k].token == token && customers[c].email == resets[k].email
            && customers'[c] == customers[c].(passwordHash := newHash, updatedAt := now)
            && (forall j :: 0 <= j < |customers| && j != c ==> customers'[j] == customers[j])
            && resets'[k] == resets[k].(usedAt := Some(now))
            && (forall j :: 0 <= j < |resets| && j != k ==> resets'[j] == resets[j]))
  {
    var k := ResetByToken(resets, token).value;
    var c := CustomerByEmail(customers, resets[k].email).value;
    assert customers[c].email == resets[k].email;
  }

  /** A token works once: a second reset with it fails as already used. */
  lemma ResetIsSingleUse(customers: seq<Customer>, resets: seq<PasswordReset>, token: string, newHash: string, now: Timestamp,
                         newHash2: string, now2: Timestamp)
    requires Reset(customers, resets, token, newHash, now).Ok?
    ensures var (customers', resets') := Reset(customers, resets, token, newHash, now).value;
      Reset(customers', resets', token, newHash2, now2) == Err(TokenUsed)
  {
    var k := ResetByToken(resets, token).value;
    var resets' := Reset(customers, resets, token, newHash, now).value.1;
    assert resets' == resets[k := resets[k].(usedAt := Some(now))];
    FindFirstAgrees(resets, resets', (r: PasswordReset) => r.token == token);
  }

  /** `resetPassword`; `newHash` is the hash of the new password. */
  method ResetPassword(db: Database, token: string, newHash: string, now: Timestamp) returns (r: Result<(), string>)
    requires db.Valid()
    modifies db`customers, db`passwordResets
    ensures db.Valid()
    ensures !db.available ==> r == Err(Unavailable)
    ensures !db.available || r.Err? ==>
      db.customers == old(db.customers) && db.passwordResets == old(db.passwordResets)
    ensures db.available ==>
      match Reset(old(db.customers), old(db.passwordResets), token, newHash, now)
      case Err(e) => r == Err(e)
      case Ok((customers, resets)) => r == Ok(()) && db.customers == customers && db.passwordResets == resets
  {
    if !db.available {
      return Err(Unavailable);
    }
    var found := ResetByToken(db.passwordResets, token);
    if found.None? {
      return Err(InvalidToken);
    }
    var k := found.value;
    var record := db.passwordResets[k];
    if record.usedAt.Some? {
      return Err(TokenUsed);
    }
    if now > record.expiresAt {
      return Err(TokenExpired);
    }
    var owner := CustomerByEmail(db.customers, record.email);
    if owner.None? {
      return Err(UserNotFound);
    }
    var c := owner.value;
    db.customers := db.customers[c := db.customers[c].(passwordHash := newHash, updatedAt := now)];
    db.passwordResets := db.passwordResets[k := record.(usedAt := Some(now))];
    return Ok(());
  }

  // ---------------------------------------------------------------------
  // getTokenFromHeader
  // ---------------------------------------------------------------------

  /** The token of an `Authorization: Bearer <token>` header. */
  function GetTokenFromHeader(header: Option<string>): (r: Option<string>)
    ensures r.Some? <==> header.Some? && BearerPrefix <= header.value
    ensures r.Some? ==> header.value == BearerPrefix + r.value
  {
    if header.Some? && BearerPrefix <= header.value then Some(header.value[|BearerPrefix|..]) else None
  }

  /** Prefixing a token with `Bearer ` and reading it back gives the token. */
  lemma BearerRoundTrip(token: string)
    ensures GetTokenFromHeader(Some(BearerPrefix + token)) == Some(token)
  {
    assert BearerPrefix <= BearerPrefix + token;
    assert (BearerPrefix + token)[|BearerPrefix|..] == token;
  }

  // ---------------------------------------------------------------------
  // getCustomerProfile / updateCustomerProfile
  // ---------------------------------------------------------------------

  function ProfileOf(c: Customer): Profile
  {
    Profile(c.id, c.email, c.name, c.phone, c.cpf, c.createdAt, c.updatedAt)
  }

  /** `getCustomerProfile`: the customer with that id, without its password hash. */
  function CustomerProfile(rows: seq<Customer>, customerId: Id): (r: Result<Profile, string>)
    ensures r.Err? <==> forall k :: 0 <= k < |rows| ==> rows[k].id != customerId
    ensures r.Err? ==> r.error == UserNotFound
    ensures r.Ok? ==> r.value.id == customerId && exists k :: 0 <= k < |rows| && ProfileOf(rows[k]) == r.value
  {
    match CustomerById(rows, customerId)
    case None => Err(UserNotFound)
    case Some(i) => Ok(ProfileOf(rows[i]))
  }

  /** `getCustomerProfile` on the database. */
  method GetCustomerProfile(db: Database, customerId: Id) returns (r: Result<Profile, string>)
    ensures !db.available ==> r == Err(Unavailable)
    ensures db.available ==> r == CustomerProfile(db.customers, customerId)
  {
    if !db.available {
      return Err(Unavailable);
    }
    var found := CustomerById(db.customers, customerId);
    if found.None? {
      return Err(UserNotFound);
    }
    return Ok(ProfileOf(db.customers[found.value]));
  }

  function ApplyChanges(c: Customer, changes: ProfileChanges, now: Timestamp): Customer
  {
    c.(name := if changes.name.Some? then changes.name.value else c.name,
       phone := if changes.phone.Some? then changes.phone else c.phone,
       cpf := if changes.cpf.Some? then changes.cpf else c.cpf,
       updatedAt := now)
  }

  /** Reply and new customers table of a profile update. */
  function UpdateProfile(rows: seq<Customer>, customerId: Id, changes: ProfileChanges, now: Timestamp)
    : Result<(Profile, seq<Customer>), string>
  {
    match CustomerById(rows, customerId)
    case None => Err(UserNotFound)
    case Some(i) =>
      var c := ApplyChanges(rows[i], changes, now);
      Ok((ProfileOf(c), rows[i := c]))
  }

  /** An update writes only the fields given: identity, email and password
      hash are kept, and no other customer changes. Repeating it only moves
      the update time. */
  lemma UpdateProfileOutcome(rows: seq<Customer>, customerId: Id, changes: ProfileChanges, now: Timestamp, later: Timestamp)
    requires UpdateProfile(rows, customerId, changes, now).Ok?
    ensures var (p, rows') := UpdateProfile(rows, customerId, changes, now).value;
      |rows'| == |rows|
      && (exists i :: 0 <= i < |rows| && rows[i].id == customerId
            && rows'[i].id == rows[i].id && rows'[i].email == rows[i].email
            && rows'[i].passwordHash == rows[i].passwordHash && rows'[i].createdAt == rows[i].createdAt
            && rows'[i].name == (if changes.name.Some? then changes.name.value else rows[i].name)
            && rows'[i].phone == (if changes.phone.Some? then changes.phone else rows[i].phone)
            && rows'[i].cpf == (if changes.cpf.Some? then changes.cpf else rows[i].cpf)
            && p == ProfileOf(rows'[i])
            && (forall k :: 0 <= k < |rows| && k != i ==> rows'[k] == rows[k]))
      && UpdateProfile(rows', customerId, changes, later) == UpdateProfile(rows, customerId, changes, later)
  {
    var i := CustomerById(rows, customerId).value;
    var rows' := UpdateProfile(rows, customerId, changes, now).value.1;
    FindFirstAgrees(rows, rows', (c: Customer) => c.id == customerId);
    assert rows'[i := ApplyChanges(rows'[i], changes, later)] == rows[i := ApplyChanges(rows[i], changes, later)];
  }

  /** `updateCustomerProfile`. */
  method UpdateCustomerProfile(db: Database, customerId: Id, changes: ProfileChanges, now: Timestamp)
    returns (r: Result<Profile, string>)
    requires db.Valid()
    modifies db`customers
    ensures db.Valid()
    ensures !db.available ==> r == Err(Unavailable) && db.customers == old(db.customers)
    ensures db.available ==>
      match UpdateProfile(old(db.customers), customerId, changes, now)
      case Err(e) => r == Err(e) && db.customers == old(db.customers)
      case Ok((p, rows)) => r == Ok(p) && db.customers == rows
  {
    if !db.available {
      return Err(Unavailable);
    }
    var found := CustomerById(db.customers, customerId);
    if found.None? {
      return Err(UserNotFound);
    }
    var i := found.value;
    var c := ApplyChanges(db.customers[i], changes, now);
    db.customers := db.customers[i := c];
    return Ok(ProfileOf(c));
  }
}
