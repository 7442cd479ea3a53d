/** The customer-account side of the mock API: the order list (with
    cancellation and refund requests), the stored payment methods and the
    customer profile. The mock keeps these in module-level variables that
    its operations update in place; here they are the fields of one object.
    Money is in integer cents and the current time is a parameter. */
module AccountApi {
  import opened Common

  const OrderNotFound := "Pedido não encontrado"
  const CannotCancel := "Este pedido não pode ser cancelado"
  const OnlyDeliveredRefund := "Apenas pedidos entregues podem solicitar reembolso"
  const PaymentMethodNotFound := "Método de pagamento não encontrado"

  datatype OrderStatus = Pending | Processing | Shipped | Delivered | Cancelled

  datatype OrderItem = OrderItem(id: string, name: string, variant: string, quantity: int, priceCents: int, image: Option<string>)

  /** An order; `cancelledAt` is an ISO-8601 date text. */
  datatype Order = Order(
    id: string,
    orderNumber: string,
    status: OrderStatus,
    createdAt: string,
    totalCents: int,
    items: seq<OrderItem>,
    paymentMethod: string,
    cancelledAt: Option<string>)

  datatype PaymentMethod = PaymentMethod(id: string, brand: string, last4: string, expMonth: int, expYear: int)

  /** An address whose fields may each be missing, as in a partial update. */
  datatype AddressFields = AddressFields(
    name: Option<string>,
    street: Option<string>,
    number: Option<string>,
    complement: Option<string>,
    neighborhood: Option<string>,
    city: Option<string>,
    state: Option<string>,
    zipCode: Option<string>)

  datatype CustomerProfile = CustomerProfile(
    id: string,
    name: string,
    email: string,
    phone: Option<string>,
    cpf: Option<string>,
    address: Option<AddressFields>)

  /** The fields a profile update may carry; a missing one is `None`. */
  datatype ProfileUpdate = ProfileUpdate(
    name: Option<string>,
    email: Option<string>,
    phone: Option<string>,
    cpf: Option<string>,
    address: Option<AddressFields>)

  // ---------------------------------------------------------------------
  // Orders
  // ---------------------------------------------------------------------

  function OrderIndex(orders: seq<Order>, orderId: string): Option<nat>
  {
    FindFirst(orders, (o: Order) => o.id == orderId)
  }

  /** `k` is the position `find` stops at when looking for `orderId`. */
  predicate FirstWithId(orders: seq<Order>, orderId: string, k: int)
  {
    0 <= k < |orders| && orders[k].id == orderId && forall j :: 0 <= j < k ==> orders[j].id != orderId
  }

  predicate Cancellable(s: OrderStatus)
  {
    s == Pending || s == Processing
  }

  /** The order list after cancelling `orderId` at time `nowIso`. */
  function Cancel(orders: seq<Order>, orderId: string, nowIso: string): Result<seq<Order>, string>
  {
    match OrderIndex(orders, orderId)
    case None => Err(OrderNotFound)
    case Some(i) =>
      if !Cancellable(orders[i].status) then Err(CannotCancel)
      else Ok(orders[i := orders[i].(status := Cancelled, cancelledAt := Some(nowIso))])
  }

  /** An unknown order cannot be cancelled; a known one exactly when it is
      pending or processing. */
  lemma CancelOutcome(orders: seq<Order>, orderId: string, nowIso: string)
    ensures (forall k :: 0 <= k < |orders| ==> orders[k].id != orderId)
            <==> Cancel(orders, orderId, nowIso) == Err(OrderNotFound)
    ensures forall k | FirstWithId(orders, orderId, k) ::
      (Cancel(orders, orderId, nowIso).Ok? <==> Cancellable(orders[k].status))
      && (!Cancellable(orders[k].status) ==> Cancel(orders, orderId, nowIso) == Err(CannotCancel))
  {
    forall k | FirstWithId(orders, orderId, k)
      ensures OrderIndex(orders, orderId) == Some(k)
    {
    }
  }

  /** A cancellation changes one order, the one with that id: its status
      becomes cancelled and its cancellation time is set. */
  lemma CancelChangesOnlyThatOrder(orders: seq<Order>, orderId: string, nowIso: string)
    requires Cancel(orders, orderId, nowIso).Ok?
    ensures var orders' := Cancel(orders, orderId, nowIso).value;
      |orders'| == |orders|
      && exists i :: 0 <= i < |orders| && orders[i].id == orderId && Cancellable(orders[i].status)
           && orders'[i] == orders[i].(status := Cancelled, cancelledAt := Some(nowIso))
           && (forall k :: 0 <= k < |orders| && k != i ==> orders'[k] == orders[k])
  {
  }

  /** An order cannot be cancelled twice. */
  lemma CancelTwiceFails(orders: seq<Order>, orderId: string, nowIso: string, laterIso: string)
    requires Cancel(orders, orderId, nowIso).Ok?
    ensures Cancel(Cancel(orders, orderId, nowIso).value, orderId, laterIso) == Err(CannotCancel)
  {
    var orders' := Cancel(orders, orderId, nowIso).value;
    FindFirstAgrees(orders, orders', (o: Order) => o.id == orderId);
  }

  /** The answer to a refund request: only a delivered order qualifies. */
  function Refund(orders: seq<Order>, orderId: string): (r: Result<(), string>)
    ensures r.Ok? <==> exists k :: FirstWithId(orders, orderId, k) && orders[k].status == Delivered
    ensures r == Err(OrderNotFound) <==> forall k :: 0 <= k < |orders| ==> orders[k].id != orderId
    ensures r == Err(OnlyDeliveredRefund) <==> exists k :: FirstWithId(orders, orderId, k) && orders[k].status != Delivered
    ensures r.Ok? || r == Err(OrderNotFound) || r == Err(OnlyDeliveredRefund)
  {
    match OrderIndex(orders, orderId)
    case None => Err(OrderNotFound)
    case Some(i) => if orders[i].status != Delivered then Err(OnlyDeliveredRefund) else Ok(())
  }

  // ---------------------------------------------------------------------
  // Payment methods
  // ---------------------------------------------------------------------

  /** The list after removing the first method with that id. */
  function RemoveMethod(methods: seq<PaymentMethod>, methodId: string): Result<seq<PaymentMethod>, string>
  {
    match FindFirst(methods, (m: PaymentMethod) => m.id == methodId)
    case None => Err(PaymentMethodNotFound)
    case Some(i) => Ok(methods[..i] + methods[i + 1..])
  }

  /** An absent id is an error; otherwise exactly the first method with it
      is removed and the others keep their order. */
  lemma RemoveMethodOutcome(methods: seq<PaymentMethod>, methodId: string)
    ensures RemoveMethod(methods, methodId).Err? <==> forall k :: 0 <= k < |methods| ==> methods[k].id != methodId
    ensures RemoveMethod(methods, methodId).Err? ==> RemoveMethod(methods, methodId).error == PaymentMethodNotFound
    ensures RemoveMethod(methods, methodId).Ok? ==>
      var rest := RemoveMethod(methods, methodId).value;
      |rest| == |methods| - 1
      && exists i :: 0 <= i < |methods| && methods[i].id == methodId
           && (forall k :: 0 <= k < i ==> methods[k].id != methodId)
           && rest == methods[..i] + methods[i + 1..]
           && multiset(rest) + multiset{methods[i]} == multiset(methods)
  {
    var found := FindFirst(methods, (m: PaymentMethod) => m.id == methodId);
    if found.Some? {
      var i := found.value;
      var rest := methods[..i] + methods[i + 1..];
      assert methods == methods[..i] + [methods[i]] + methods[i + 1..];
      assert multiset(rest) + multiset{methods[i]} == multiset(methods);
      assert RemoveMethod(methods, methodId) == Ok(rest);
    }
  }

  // ---------------------------------------------------------------------
  // Profile
  // ---------------------------------------------------------------------

  function Pick<T>(given: Option<T>, kept: Option<T>): Option<T>
  {
    if given.Some? then given else kept
  }

  /** The stored address with the given fields written over it; with no
      stored address, the given fields alone. */
  function MergeAddress(stored: Option<AddressFields>, given: AddressFields): AddressFields
  {
    match stored
    case None => given
    case Some(a) =>
      AddressFields(
        Pick(given.name, a.name), Pick(given.street, a.street), Pick(given.number, a.number),
        Pick(given.complement, a.complement), Pick(given.neighborhood, a.neighborhood),
        Pick(given.city, a.city), Pick(given.state, a.state), Pick(given.zipCode, a.zipCode))
  }

  /** The profile after an update: given fields replace the stored ones and
      a given address is merged into the stored one. */
  function MergeProfile(p: CustomerProfile, u: ProfileUpdate): CustomerProfile
  {
    CustomerProfile(
      p.id,
      if u.name.Some? then u.name.value else p.name,
      if u.email.Some? then u.email.value else p.email,
      Pick(u.phone, p.phone),
      Pick(u.cpf, p.cpf),
      if u.address.Some? then Some(MergeAddress(p.address, u.address.value)) else p.address)
  }

  /** Every required part of an address is present. */
  predicate Complete(a: AddressFields)
  {
    a.name.Some? && a.street.Some? && a.number.Some? && a.neighborhood.Some?
    && a.city.Some? && a.state.Some? && a.zipCode.Some?
  }

  /** `r` is the `given` field when one is given, and the `stored` one otherwise. */
  predicate Overwrites<T(==)>(r: Option<T>, given: Option<T>, stored: Option<T>)
  {
    (given.Some? ==> r == given) && (given.None? ==> r == stored)
  }

  /** Every field of `r` is the given one when given, the stored one otherwise. */
  predicate AddressOverlay(r: AddressFields, given: AddressFields, stored: AddressFields)
  {
    && Overwrites(r.name, given.name, stored.name)
    && Overwrites(r.street, given.street, stored.street)
    && Overwrites(r.number, given.number, stored.number)
    && Overwrites(r.complement, given.complement, stored.complement)
    && Overwrites(r.neighborhood, given.neighborhood, stored.neighborhood)
    && Overwrites(r.city, given.city, stored.city)
    && Overwrites(r.state, given.state, stored.state)
    && Overwrites(r.zipCode, given.zipCode, stored.zipCode)
  }

  /** An update never changes the id, overwrites exactly the fields it
      carries, and merges an address field by field: a field left out of
      the given address keeps its stored value, and with no stored address
      the given one is stored as it is. */
  lemma MergeProfileOutcome(p: CustomerProfile, u: ProfileUpdate)
    ensures var q := MergeProfile(p, u);
      q.id == p.id
      && (u.name.Some? ==> q.name == u.name.value) && (u.name.None? ==> q.name == p.name)
      && (u.email.Some? ==> q.email == u.email.value) && (u.email.None? ==> q.email == p.email)
      && (u.phone.Some? ==> q.phone == u.phone) && (u.phone.None? ==> q.phone == p.phone)
      && (u.cpf.Some? ==> q.cpf == u.cpf) && (u.cpf.None? ==> q.cpf == p.cpf)
      && (u.address.None? ==> q.address == p.address)
      && (u.address.Some? && p.address.None? ==> q.address == u.address)
      && (u.address.Some? && p.address.Some? ==>
            q.address.Some? && AddressOverlay(q.address.value, u.address.value, p.address.value))
  {
  }

  /** Applying the same update twice is applying it once. */
  lemma MergeProfileIdempotent(p: CustomerProfile, u: ProfileUpdate)
    ensures MergeProfile(MergeProfile(p, u), u) == MergeProfile(p, u)
  {
  }

  /** A complete stored address stays complete after any update. */
  lemma MergeKeepsAddressComplete(p: CustomerProfile, u: ProfileUpdate)
    requires p.address.Some? && Complete(p.address.value)
    ensures MergeProfile(p, u).address.Some? && Complete(MergeProfile(p, u).address.value)
  {
  }

  // ---------------------------------------------------------------------
  // The mock store
  // ---------------------------------------------------------------------

  class MockAccount {
    var orders: seq<Order>
    var paymentMethods: seq<PaymentMethod>
    var profile: CustomerProfile

    constructor (orders: seq<Order>, paymentMethods: seq<PaymentMethod>, profile: CustomerProfile)
      ensures this.orders == orders && this.paymentMethods == paymentMethods && this.profile == profile
    {
      this.orders := orders;
      this.paymentMethods := paymentMethods;
      this.profile := profile;
    }

    /** `getOrder`: the first order with that id. */
    method GetOrder(orderId: string) returns (r: Result<Order, string>)
      ensures r.Err? <==> forall k :: 0 <= k < |orders| ==> orders[k].id != orderId
      ensures r.Err? ==> r.error == OrderNotFound
      ensures r.Ok? ==> exists k :: FirstWithId(orders, orderId, k) && orders[k] == r.value
    {
      var i := OrderIndex(orders, orderId);
      if i.None? {
        return Err(OrderNotFound);
      }
      return Ok(orders[i.value]);
    }

    /** `cancelOrder`. */
    method CancelOrder(orderId: string, nowIso: string) returns (r: Result<(), string>)
      modifies this`orders
      ensures match Cancel(old(orders), orderId, nowIso)
        case Err(e) => r == Err(e) && orders == old(orders)
        case Ok(orders') => r == Ok(()) && orders == orders'
    {
      var found := OrderIndex(orders, orderId);
      if found.None? {
        return Err(OrderNotFound);
      }
      var i := found.value;
      if !Cancellable(orders[i].status) {
        return Err(CannotCancel);
      }
      orders := orders[i := orders[i].(status := Cancelled, cancelledAt := Some(nowIso))];
      return Ok(());
    }

    /** `requestRefund`: answers without changing any order. */
    method RequestRefund(orderId: string) returns (r: Result<(), string>)
      ensures r == Refund(orders, orderId)
      ensures r.Ok? ==> exists k :: 0 <= k < |orders| && orders[k].id == orderId && orders[k].status == Delivered
    {
      var found := OrderIndex(orders, orderId);
      if found.None? {
        return Err(OrderNotFound);
      }
      if orders[found.value].status != Delivered {
        return Err(OnlyDeliveredRefund);
      }
      return Ok(());
    }

    /** `getPaymentMethods`: a copy of the stored list. */
    method GetPaymentMethods() returns (r: seq<PaymentMethod>)
      ensures r == paymentMethods
    {
      r := paymentMethods;
    }

    /** `removePaymentMethod`. */
    method RemovePaymentMethod(methodId: string) returns (r: Result<(), string>)
      modifies this`paymentMethods
      ensures match RemoveMethod(old(paymentMethods), methodId)
        case Err(e) => r == Err(e) && paymentMethods == old(paymentMethods)
        case Ok(rest) => r == Ok(()) && paymentMethods == rest
    {
      var found := FindFirst(paymentMethods, (m: PaymentMethod) => m.id == methodId);
      if found.None? {
        return Err(PaymentMethodNotFound);
      }
      var i := found.value;
      paymentMethods := paymentMethods[..i] + paymentMethods[i + 1..];
      return Ok(());
    }

    /** `getProfile`: a copy of the stored profile. */
    method GetProfile() returns (p: CustomerProfile)
      ensures p == profile
    {
      p := profile;
    }

    /** `updateProfile`: stores and returns the merged profile. */
    method UpdateProfile(u: ProfileUpdate) returns (p: CustomerProfile)
      modifies this`profile
      ensures profile == MergeProfile(old(profile), u) && p == profile
    {
      profile := MergeProfile(profile, u);
      p := profile;
    }
  }
}
