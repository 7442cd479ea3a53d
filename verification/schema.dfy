/** The rows of the relational store the authentication and lead services
    work on (customers, admin users, password resets, abandoned carts), and
    the store itself: each table is a sequence of rows that the services
    insert into and update. */
module Schema {
  import opened Common

  type Id = string

  /** Milliseconds since the epoch (`Date.now()`). */
  type Timestamp = int

  datatype Customer = Customer(
    id: Id,
    email: string,
    passwordHash: string,
    name: string,
    phone: Option<string>,
    cpf: Option<string>,
    createdAt: Timestamp,
    updatedAt: Timestamp)

  datatype AdminUser = AdminUser(
    id: Id,
    email: string,
    passwordHash: string,
    name: string,
    role: string,          // "admin" or "super_admin"
    active: bool,
    createdAt: Timestamp,
    lastLogin: Option<Timestamp>)

  datatype PasswordReset = PasswordReset(
    id: Id,
    email: string,
    token: string,
    expiresAt: Timestamp,
    usedAt: Option<Timestamp>,
    createdAt: Timestamp)

  /** The three values the lead service writes into `abandoned_carts.status`. */
  datatype LeadStatus = Abandoned | Recovered | Converted

  /** One item of a lead's cart; prices in integer cents. */
  datatype CartItem = CartItem(
    id: string,
    name: string,
    variant: string,
    priceCents: int,
    quantity: int,
    image: Option<string>)

  /** A row of `abandoned_carts`. The cart is kept as its items rather than
      as their JSON text, the total in cents rather than as `toFixed(2)` text,
      and the reminder count as a number rather than as its decimal text. */
  datatype AbandonedCart = AbandonedCart(
    id: Id,
    email: string,
    name: string,
    phone: Option<string>,
    cartData: seq<CartItem>,
    cartTotalCents: int,
    status: LeadStatus,
    convertedToCustomerId: Option<Id>,
    remindersSent: nat,
    lastReminderAt: Option<Timestamp>,
    createdAt: Timestamp,
    updatedAt: Timestamp)

  // `findFirst` lookups used by more than one service

  function CustomerByEmail(rows: seq<Customer>, email: string): Option<nat>
  {
    FindFirst(rows, (c: Customer) => c.email == email)
  }

  function CustomerById(rows: seq<Customer>, id: Id): Option<nat>
  {
    FindFirst(rows, (c: Customer) => c.id == id)
  }

  function AdminByEmail(rows: seq<AdminUser>, email: string): Option<nat>
  {
    FindFirst(rows, (a: AdminUser) => a.email == email)
  }

  function ResetByToken(rows: seq<PasswordReset>, token: string): Option<nat>
  {
    FindFirst(rows, (r: PasswordReset) => r.token == token)
  }

  /** Primary keys and unique columns of the customers table. */
  ghost predicate CustomersKeyed(rows: seq<Customer>)
  {
    forall i, j :: 0 <= i < j < |rows| ==> rows[i].id != rows[j].id && rows[i].email != rows[j].email
  }

  ghost predicate AdminsKeyed(rows: seq<AdminUser>)
  {
    forall i, j :: 0 <= i < j < |rows| ==> rows[i].id != rows[j].id && rows[i].email != rows[j].email
  }

  ghost predicate ResetsKeyed(rows: seq<PasswordReset>)
  {
    forall i, j :: 0 <= i < j < |rows| ==> rows[i].id != rows[j].id && rows[i].token != rows[j].token
  }

  ghost predicate CartsKeyed(rows: seq<AbandonedCart>)
  {
    forall i, j :: 0 <= i < j < |rows| ==> rows[i].id != rows[j].id
  }

  /** At most one lead per email is still `abandoned`. */
  ghost predicate OneOpenLeadPerEmail(rows: seq<AbandonedCart>)
  {
    forall i, j :: 0 <= i < j < |rows| && rows[i].status == Abandoned && rows[j].status == Abandoned
      ==> rows[i].email != rows[j].email
  }

  /** The database. `available` stands for the connection check every
      service makes before touching a table. */
  class Database {
    var available: bool
    var customers: seq<Customer>
    var adminUsers: seq<AdminUser>
    var passwordResets: seq<PasswordReset>
    var abandonedCarts: seq<AbandonedCart>

    /** The uniqueness constraints the schema declares, and the lead
        service's rule that an email has at most one open lead. */
    ghost predicate Valid()
      reads this
    {
      CustomersKeyed(customers) && AdminsKeyed(adminUsers)
      && ResetsKeyed(passwordResets) && CartsKeyed(abandonedCarts)
      && OneOpenLeadPerEmail(abandonedCarts)
    }

    constructor (available: bool)
      ensures Valid() && this.available == available
      ensures customers == [] && adminUsers == [] && passwordResets == [] && abandonedCarts == []
    {
      this.available := available;
      customers, adminUsers, passwordResets, abandonedCarts := [], [], [], [];
    }
  }
}
