/** The abandoned-cart lead service. A lead is captured when someone starts
    checkout: it is upserted by (lower-cased) email, leaves the `abandoned`
    status only towards `recovered` or `converted`. The reminder query
    selects only abandoned leads older than an hour that have had fewer
    than three reminders, none of them within the last day.

    Each operation is a method on the database, proved against a pure
    function that gives the reply and the new lead table; the lemmas below
    state what the service promises about those functions. Sending the
    reminder email is a call into another service: its outcome is the
    parameter `mailSent`. */
module Leads {
  import opened Common
  import opened Schema

  const Unavailable := "Serviço temporariamente indisponível."

  const HourMs: int := 60 * 60 * 1000
  const DayMs: int := 24 * 60 * 60 * 1000
  const MaxReminders: nat := 3

  /** What the checkout form submits; the total in cents. */
  datatype LeadData = LeadData(
    email: string,
    name: string,
    phone: JsonField<string>,
    cartItems: seq<CartItem>,
    cartTotalCents: int)

  datatype CaptureResult = CaptureResult(id: Id, isNewLead: bool)

  datatype LeadStats = LeadStats(
    total: nat,
    abandoned: nat,
    recovered: nat,
    converted: nat,
    conversionRate: real)   // a percentage

  // ---------------------------------------------------------------------
  // Lookups
  // ---------------------------------------------------------------------

  predicate IsOpenLeadOf(l: AbandonedCart, email: string)
  {
    l.email == email && l.status == Abandoned
  }

  function OpenLeadByEmail(rows: seq<AbandonedCart>, email: string): Option<nat>
  {
    FindFirst(rows, (l: AbandonedCart) => IsOpenLeadOf(l, email))
  }

  function LeadById(rows: seq<AbandonedCart>, id: Id): Option<nat>
  {
    FindFirst(rows, (l: AbandonedCart) => l.id == id)
  }

  // ---------------------------------------------------------------------
  // captureCheckoutLead
  // ---------------------------------------------------------------------

  /** The open lead refreshed with a new submission. An absent phone leaves
      the stored phone as it is (an `undefined` value is not written); an
      explicit `null` clears it. */
  function Refresh(l: AbandonedCart, data: LeadData, now: Timestamp): (r: AbandonedCart)
    ensures r.id == l.id && r.email == l.email && r.status == l.status
    ensures r.remindersSent == l.remindersSent && r.lastReminderAt == l.lastReminderAt
    ensures r.convertedToCustomerId == l.convertedToCustomerId && r.createdAt == l.createdAt
    ensures r.name == data.name && r.cartData == data.cartItems && r.cartTotalCents == data.cartTotalCents
    ensures r.updatedAt == now
    ensures data.phone.Missing? ==> r.phone == l.phone
    ensures data.phone.Null? ==> r.phone.None?
    ensures data.phone.Given? ==> r.phone == Some(data.phone.value)
  {
    l.(name := data.name,
       phone := if data.phone.Missing? then l.phone else ColumnOf(data.phone),
       cartData := data.cartItems,
       cartTotalCents := data.cartTotalCents,
       updatedAt := now)
  }

  /** A fresh `abandoned` lead with no reminders; a missing or `null` phone
      leaves the column empty. */
  function NewLead(id: Id, email: string, data: LeadData, now: Timestamp): (r: AbandonedCart)
    ensures r.id == id && r.email == email && r.status == Abandoned
    ensures r.remindersSent == 0 && r.lastReminderAt.None? && r.convertedToCustomerId.None?
    ensures r.name == data.name && r.cartData == data.cartItems && r.cartTotalCents == data.cartTotalCents
    ensures r.phone.Some? <==> data.phone.Given?
    ensures r.createdAt == now && r.updatedAt == now
  {
    AbandonedCart(id, email, data.name, ColumnOf(data.phone), data.cartItems, data.cartTotalCents,
                  Abandoned, None, 0, None, now, now)
  }

  /** Reply and new lead table of a capture. */
  function Capture(customers: seq<Customer>, rows: seq<AbandonedCart>, data: LeadData, newId: Id, now: Timestamp)
    : (CaptureResult, seq<AbandonedCart>)
  {
    var email := ToLower(data.email);
    match CustomerByEmail(customers, email)
    case Some(c) => (CaptureResult(customers[c].id, false), rows)
    case None =>
      match OpenLeadByEmail(rows, email)
      case Some(i) => (CaptureResult(rows[i].id, false), rows[i := Refresh(rows[i], data, now)])
      case None => (CaptureResult(newId, true), rows + [NewLead(newId, email, data, now)])
  }

  /** A known customer is answered with its own id and the lead table is left alone. */
  lemma CaptureOfCustomer(customers: seq<Customer>, rows: seq<AbandonedCart>, data: LeadData, newId: Id, now: Timestamp)
    requires exists k :: 0 <= k < |customers| && customers[k].email == ToLower(data.email)
    ensures var (res, rows') := Capture(customers, rows, data, newId, now);
      rows' == rows && !res.isNewLead
      && exists k :: 0 <= k < |customers| && customers[k].email == ToLower(data.email) && res.id == customers[k].id
  {
  }

  /** An open lead with that email is updated in place: no row is added, and
      only its name, phone, cart and total (and update time) change. */
  lemma CaptureRefreshesOpenLead(customers: seq<Customer>, rows: seq<AbandonedCart>, data: LeadData, newId: Id, now: Timestamp)
    requires forall k :: 0 <= k < |customers| ==> customers[k].email != ToLower(data.email)
    requires exists i :: 0 <= i < |rows| && IsOpenLeadOf(rows[i], ToLower(data.email))
    ensures var (res, rows') := Capture(customers, rows, data, newId, now);
      !res.isNewLead && |rows'| == |rows|
      && (exists i :: 0 <= i < |rows| && IsOpenLeadOf(rows[i], ToLower(data.email)) && res.id == rows[i].id
            && rows'[i] == Refresh(rows[i], data, now)
            && (forall k :: 0 <= k < |rows| && k != i ==> rows'[k] == rows[k]))
  {
    var email := ToLower(data.email);
    assert CustomerByEmail(customers, email).None?;
    var i := OpenLeadByEmail(rows, email).value;
    assert IsOpenLeadOf(rows[i], email);
  }

  /** Otherwise exactly one `abandoned` row, with the lower-cased email, is appended. */
  lemma CaptureInsertsNewLead(customers: seq<Customer>, rows: seq<AbandonedCart>, data: LeadData, newId: Id, now: Timestamp)
    requires forall k :: 0 <= k < |customers| ==> customers[k].email != ToLower(data.email)
    requires forall i :: 0 <= i < |rows| ==> !IsOpenLeadOf(rows[i], ToLower(data.email))
    ensures var (res, rows') := Capture(customers, rows, data, newId, now);
      res == CaptureResult(newId, true) && rows' == rows + [rows'[|rows|]]
      && rows'[|rows|].status == Abandoned && rows'[|rows|].email == ToLower(data.email)
      && rows'[|rows|].remindersSent == 0 && rows'[|rows|].id == newId
  {
    var email := ToLower(data.email);
    assert CustomerByEmail(customers, email).None?;
    assert OpenLeadByEmail(rows, email).None?;
  }

  /** A capture reports a new lead exactly when it adds a row. */
  lemma CaptureNewIffGrows(customers: seq<Customer>, rows: seq<AbandonedCart>, data: LeadData, newId: Id, now: Timestamp)
    ensures var (res, rows') := Capture(customers, rows, data, newId, now);
      (res.isNewLead <==> |rows'| == |rows| + 1) && (!res.isNewLead <==> |rows'| == |rows|)
  {
  }

  /** The upsert never creates a second open lead for an email, and keeps
      lead ids unique when the new id is unused. */
  lemma {:induction false} CaptureKeepsInvariants(customers: seq<Customer>, rows: seq<AbandonedCart>, data: LeadData, newId: Id, now: Timestamp)
    requires OneOpenLeadPerEmail(rows) && CartsKeyed(rows)
    requires forall k :: 0 <= k < |rows| ==> rows[k].id != newId
    ensures OneOpenLeadPerEmail(Capture(customers, rows, data, newId, now).1)
    ensures CartsKeyed(Capture(customers, rows, data, newId, now).1)
  {
    var email := ToLower(data.email);
    var rows' := Capture(customers, rows, data, newId, now).1;
    if CustomerByEmail(customers, email).None? && OpenLeadByEmail(rows, email).None? {
      assert rows' == rows + [NewLead(newId, email, data, now)];
      forall i, j | 0 <= i < j < |rows'| && rows'[i].status == Abandoned && rows'[j].status == Abandoned
        ensures rows'[i].email != rows'[j].email
      {
        if j == |rows| {
          assert !IsOpenLeadOf(rows[i], email);
        }
      }
    }
  }

  /** `captureCheckoutLead`. */
  method CaptureCheckoutLead(db: Database, data: LeadData, newId: Id, now: Timestamp)
    returns (r: Result<CaptureResult, string>)
    requires db.Valid()
    requires forall k :: 0 <= k < |db.abandonedCarts| ==> db.abandonedCarts[k].id != newId
    modifies db`abandonedCarts
    ensures db.Valid()
    ensures !db.available ==> r == Err(Unavailable) && db.abandonedCarts == old(db.abandonedCarts)
    ensures db.available ==>
      r.Ok? && (r.value, db.abandonedCarts) == Capture(db.customers, old(db.abandonedCarts), data, newId, now)
  {
    if !db.available {
      return Err(Unavailable);
    }
    CaptureKeepsInvariants(db.customers, db.abandonedCarts, data, newId, now);
    var email := ToLower(data.email);
    var customer := CustomerByEmail(db.customers, email);
    if customer.Some? {
      return Ok(CaptureResult(db.customers[customer.value].id, false));
    }
    var lead := OpenLeadByEmail(db.abandonedCarts, email);
    if lead.Some? {
      var i := lead.value;
      db.abandonedCarts := db.abandonedCarts[i := Refresh(db.abandonedCarts[i], data, now)];
      return Ok(CaptureResult(db.abandonedCarts[i].id, false));
    }
    db.abandonedCarts := db.abandonedCarts + [NewLead(newId, email, data, now)];
    return Ok(CaptureResult(newId, true));
  }

  // ---------------------------------------------------------------------
  // markLeadAsConverted / markLeadAsRecovered
  // ---------------------------------------------------------------------

  /** Moves every open lead of the lower-cased `email` to status `to`;
      `customerId`, when given, is recorded as the converted customer. */
  function MarkLeads(rows: seq<AbandonedCart>, email: string, to: LeadStatus, customerId: Option<Id>, now: Timestamp)
    : (rows': seq<AbandonedCart>)
    ensures |rows'| == |rows|
  {
    seq(|rows|, k requires 0 <= k < |rows| =>
      if IsOpenLeadOf(rows[k], ToLower(email))
      then rows[k].(status := to,
                    convertedToCustomerId := if customerId.Some? then customerId else rows[k].convertedToCustomerId,
                    updatedAt := now)
      else rows[k])
  }

  /** Only open leads of that email change, and each of them only in its
      status, converted-customer reference and update time. */
  lemma MarkLeadsFrame(rows: seq<AbandonedCart>, email: string, to: LeadStatus, customerId: Option<Id>, now: Timestamp, k: nat)
    requires k < |rows|
    ensures var rows' := MarkLeads(rows, email, to, customerId, now);
      (!IsOpenLeadOf(rows[k], ToLower(email)) ==> rows'[k] == rows[k])
      && (IsOpenLeadOf(rows[k], ToLower(email)) ==>
            rows'[k] == rows[k].(status := to, updatedAt := now,
                                 convertedToCustomerId := if customerId.Some? then customerId else rows[k].convertedToCustomerId))
  {
  }

  /** Afterwards no open lead of that email is left. */
  lemma MarkLeadsClosesEmail(rows: seq<AbandonedCart>, email: string, to: LeadStatus, customerId: Option<Id>, now: Timestamp)
    requires to != Abandoned
    ensures var rows' := MarkLeads(rows, email, to, customerId, now);
      forall k :: 0 <= k < |rows'| ==> !IsOpenLeadOf(rows'[k], ToLower(email))
  {
  }

  /** A second mark for the same email, with any target and time, changes nothing. */
  lemma MarkLeadsTwiceIsNoOp(rows: seq<AbandonedCart>, email: string, to: LeadStatus, customerId: Option<Id>, now: Timestamp,
                             to2: LeadStatus, customerId2: Option<Id>, now2: Timestamp)
    requires to != Abandoned
    ensures var once := MarkLeads(rows, email, to, customerId, now);
      MarkLeads(once, email, to2, customerId2, now2) == once
  {
    var once := MarkLeads(rows, email, to, customerId, now);
    MarkLeadsClosesEmail(rows, email, to, customerId, now);
    assert forall k :: 0 <= k < |once| ==> MarkLeads(once, email, to2, customerId2, now2)[k] == once[k];
  }

  /** Marking only takes leads out of `abandoned`, so it keeps the invariants. */
  lemma MarkLeadsKeepsInvariants(rows: seq<AbandonedCart>, email: string, to: LeadStatus, customerId: Option<Id>, now: Timestamp)
    requires to != Abandoned
    requires OneOpenLeadPerEmail(rows) && CartsKeyed(rows)
    ensures OneOpenLeadPerEmail(MarkLeads(rows, email, to, customerId, now))
    ensures CartsKeyed(MarkLeads(rows, email, to, customerId, now))
  {
  }

  /** `markLeadAsConverted`. */
  method MarkLeadAsConverted(db: Database, email: string, customerId: Option<Id>, now: Timestamp)
    returns (r: Result<(), string>)
    requires db.Valid()
    modifies db`abandonedCarts
    ensures db.Valid()
    ensures !db.available ==> r == Err(Unavailable) && db.abandonedCarts == old(db.abandonedCarts)
    ensures db.available ==> r == Ok(()) && db.abandonedCarts == MarkLeads(old(db.abandonedCarts), email, Converted, customerId, now)
  {
    if !db.available {
      return Err(Unavailable);
    }
    MarkLeadsKeepsInvariants(db.abandonedCarts, email, Converted, customerId, now);
    db.abandonedCarts := MarkLeads(db.abandonedCarts, email, Converted, customerId, now);
    return Ok(());
  }

  /** `markLeadAsRecovered`: like conversion, without a customer reference. */
  method MarkLeadAsRecovered(db: Database, email: string, now: Timestamp)
    returns (r: Result<(), string>)
    requires db.Valid()
    modifies db`abandonedCarts
    ensures db.Valid()
    ensures !db.available ==> r == Err(Unavailable) && db.abandonedCarts == old(db.abandonedCarts)
    ensures db.available ==> r == Ok(()) && db.abandonedCarts == MarkLeads(old(db.abandonedCarts), email, Recovered, None, now)
  {
    if !db.available {
      return Err(Unavailable);
    }
    MarkLeadsKeepsInvariants(db.abandonedCarts, email, Recovered, None, now);
    db.abandonedCarts := MarkLeads(db.abandonedCarts, email, Recovered, None, now);
    return Ok(());
  }

  // ---------------------------------------------------------------------
  // getLeadsForReminder
  // ---------------------------------------------------------------------

  /** The filter applied to each abandoned lead, test by test. */
  function PassesReminderFilter(l: AbandonedCart, now: Timestamp): bool
  {
    if l.createdAt > now - HourMs then false
    else if l.remindersSent >= MaxReminders then false
    else if l.lastReminderAt.Some? && l.lastReminderAt.value > now - DayMs then false
    else true
  }

  /** When a lead is due for a reminder, stated as one condition. */
  predicate DueForReminder(l: AbandonedCart, now: Timestamp)
  {
    && l.status == Abandoned
    && l.createdAt <= now - HourMs
    && l.remindersSent < MaxReminders
    && (l.lastReminderAt.None? || l.lastReminderAt.value <= now - DayMs)
  }

  /** The abandoned leads (query) that pass the filter. */
  function LeadsForReminder(rows: seq<AbandonedCart>, now: Timestamp): seq<AbandonedCart>
  {
    Filter(Filter(rows, (l: AbandonedCart) => l.status == Abandoned),
           (l: AbandonedCart) => PassesReminderFilter(l, now))
  }

  /** The query-then-filter selects exactly the due leads, in table order. */
  lemma {:induction false} LeadsForReminderAreDue(rows: seq<AbandonedCart>, now: Timestamp)
    ensures LeadsForReminder(rows, now) == Filter(rows, (l: AbandonedCart) => DueForReminder(l, now))
  {
    if |rows| > 0 {
      LeadsForReminderAreDue(rows[1..], now);
      var open := (l: AbandonedCart) => l.status == Abandoned;
      var pass := (l: AbandonedCart) => PassesReminderFilter(l, now);
      var a := if open(rows[0]) then [rows[0]] else [];
      assert Filter(rows, open) == a + Filter(rows[1..], open);
      FilterAppend(a, Filter(rows[1..], open), pass);
      if open(rows[0]) {
        assert Filter(a, pass) == if pass(rows[0]) then [rows[0]] else [];
      }
    }
  }

  /** Every lead returned is due, and every due lead is returned. */
  lemma LeadsForReminderExactly(rows: seq<AbandonedCart>, now: Timestamp)
    ensures forall k :: 0 <= k < |LeadsForReminder(rows, now)| ==>
      LeadsForReminder(rows, now)[k] in rows && DueForReminder(LeadsForReminder(rows, now)[k], now)
    ensures forall k :: 0 <= k < |rows| && DueForReminder(rows[k], now) ==> rows[k] in LeadsForReminder(rows, now)
  {
    LeadsForReminderAreDue(rows, now);
  }

  /** `getLeadsForReminder`. */
  method GetLeadsForReminder(db: Database, now: Timestamp) returns (r: Result<seq<AbandonedCart>, string>)
    ensures !db.available ==> r == Err(Unavailable)
    ensures db.available ==> r.Ok? && r.value == Filter(db.abandonedCarts, (l: AbandonedCart) => DueForReminder(l, now))
  {
    if !db.available {
      return Err(Unavailable);
    }
    LeadsForReminderAreDue(db.abandonedCarts, now);
    return Ok(LeadsForReminder(db.abandonedCarts, now));
  }

  // ---------------------------------------------------------------------
  // sendLeadReminder
  // ---------------------------------------------------------------------

  /** Whether a reminder was sent, and the new lead table. */
  function Remind(rows: seq<AbandonedCart>, leadId: Id, mailSent: bool, now: Timestamp): (bool, seq<AbandonedCart>)
  {
    match LeadById(rows, leadId)
    case None => (false, rows)
    case Some(i) =>
      if rows[i].status != Abandoned || !mailSent then (false, rows)
      else (true, rows[i := rows[i].(remindersSent := rows[i].remindersSent + 1,
                                     lastReminderAt := Some(now),
                                     updatedAt := now)])
  }

  /** A missing or no longer abandoned lead, or a failed email, changes nothing. */
  lemma RemindFailureChangesNothing(rows: seq<AbandonedCart>, leadId: Id, mailSent: bool, now: Timestamp)
    requires !mailSent
      || (forall k :: 0 <= k < |rows| ==> rows[k].id != leadId)
      || (exists k :: 0 <= k < |rows| && rows[k].id == leadId && rows[k].status != Abandoned && CartsKeyed(rows))
    ensures Remind(rows, leadId, mailSent, now) == (false, rows)
  {
    if LeadById(rows, leadId).Some? && mailSent {
      var k :| 0 <= k < |rows| && rows[k].id == leadId && rows[k].status != Abandoned && CartsKeyed(rows);
      var i := LeadById(rows, leadId).value;
      assert i == k;
    }
  }

  /** A sent reminder adds exactly one to that lead's count and stamps it;
      every other row stays as it was. */
  lemma RemindCountsOne(rows: seq<AbandonedCart>, leadId: Id, mailSent: bool, now: Timestamp)
    requires Remind(rows, leadId, mailSent, now).0
    ensures var rows' := Remind(rows, leadId, mailSent, now).1;
      |rows'| == |rows| && mailSent
      && (exists i :: 0 <= i < |rows| && rows[i].id == leadId && rows[i].status == Abandoned
            && rows'[i] == rows[i].(remindersSent := rows[i].remindersSent + 1, lastReminderAt := Some(now), updatedAt := now)
            && (forall k :: 0 <= k < |rows| && k != i ==> rows'[k] == rows[k]))
  {
  }

  /** After a reminder at `now`, the lead is not due again for a day. */
  lemma RemindThrottles(rows: seq<AbandonedCart>, leadId: Id, now: Timestamp, later: Timestamp, k: nat)
    requires Remind(rows, leadId, true, now).0
    requires k < |rows| && rows[k].id == leadId && CartsKeyed(rows)
    requires later < now + DayMs
    ensures !DueForReminder(Remind(rows, leadId, true, now).1[k], later)
  {
    var i := LeadById(rows, leadId).value;
    assert i == k;
  }

  /** Reminders never reset: no row's count goes down. */
  lemma RemindNeverLowersCounts(rows: seq<AbandonedCart>, leadId: Id, mailSent: bool, now: Timestamp)
    ensures var rows' := Remind(rows, leadId, mailSent, now).1;
      |rows'| == |rows| && forall k :: 0 <= k < |rows| ==> rows'[k].remindersSent >= rows[k].remindersSent
  {
  }

  /** Reminding a lead the reminder query selected keeps it within the
      limits: at most three reminders, none in its first hour. (The service
      itself sends to any abandoned lead id it is given.) */
  lemma RemindDueKeepsLimits(rows: seq<AbandonedCart>, leadId: Id, mailSent: bool, now: Timestamp, k: nat)
    requires k < |rows| && rows[k].id == leadId && CartsKeyed(rows)
    requires DueForReminder(rows[k], now)
    ensures var rows' := Remind(rows, leadId, mailSent, now).1;
      rows'[k].remindersSent <= MaxReminders && rows'[k].createdAt <= now - HourMs
      && (Remind(rows, leadId, mailSent, now).0 ==> rows'[k].remindersSent == rows[k].remindersSent + 1)
  {
    var i := LeadById(rows, leadId).value;
    assert i == k;
  }

  /** `sendLeadReminder`. */
  method SendLeadReminder(db: Database, leadId: Id, mailSent: bool, now: Timestamp)
    returns (r: Result<bool, string>)
    requires db.Valid()
    modifies db`abandonedCarts
    ensures db.Valid()
    ensures !db.available ==> r == Err(Unavailable) && db.abandonedCarts == old(db.abandonedCarts)
    ensures db.available ==> r.Ok? && (r.value, db.abandonedCarts) == Remind(old(db.abandonedCarts), leadId, mailSent, now)
  {
    if !db.available {
      return Err(Unavailable);
    }
    var found := LeadById(db.abandonedCarts, leadId);
    if found.None? || db.abandonedCarts[found.value].status != Abandoned {
      return Ok(false);
    }
    var i := found.value;
    if !mailSent {
      return Ok(false);
    }
    var lead := db.abandonedCarts[i];
    db.abandonedCarts := db.abandonedCarts[i := lead.(remindersSent := lead.remindersSent + 1,
                                                      lastReminderAt := Some(now),
                                                      updatedAt := now)];
    return Ok(true);
  }

  // ---------------------------------------------------------------------
  // getLeadStats
  // ---------------------------------------------------------------------

  function CountStatus(rows: seq<AbandonedCart>, s: LeadStatus): nat
  {
    Count(rows, (l: AbandonedCart) => l.status == s)
  }

  /** Totals per status and the conversion percentage. */
  function Stats(rows: seq<AbandonedCart>): LeadStats
  {
    var total := |rows|;
    var converted := CountStatus(rows, Converted);
    LeadStats(total, CountStatus(rows, Abandoned), CountStatus(rows, Recovered), converted,
              if total > 0 then (converted as real / total as real) * 100.0 else 0.0)
  }

  /** Every lead has one of the three statuses, so the counts add up to the total. */
  lemma {:induction false} StatusCountsPartition(rows: seq<AbandonedCart>)
    ensures CountStatus(rows, Abandoned) + CountStatus(rows, Recovered) + CountStatus(rows, Converted) == |rows|
  {
    if |rows| > 0 {
      StatusCountsPartition(rows[1..]);
    }
  }

  /** The statistics are consistent: the counts add up, and the rate is a
      percentage that is 0 for an empty table. */
  lemma StatsConsistent(rows: seq<AbandonedCart>)
    ensures var s := Stats(rows);
      s.abandoned + s.recovered + s.converted == s.total == |rows|
      && (s.total == 0 ==> s.conversionRate == 0.0)
      && 0.0 <= s.conversionRate <= 100.0
  {
    StatusCountsPartition(rows);
    var s := Stats(rows);
    if s.total > 0 {
      assert s.converted <= s.total;
      assert s.converted as real / s.total as real <= 1.0;
    }
  }

  /** `getLeadStats`. */
  method GetLeadStats(db: Database) returns (r: Result<LeadStats, string>)
    ensures !db.available ==> r == Err(Unavailable)
    ensures db.available ==> r == Ok(Stats(db.abandonedCarts))
    ensures db.available ==>
      r.Ok? && r.value.total == |db.abandonedCarts|
      && r.value.abandoned + r.value.recovered + r.value.converted == r.value.total
      && r.value.converted == CountStatus(db.abandonedCarts, Converted)
  {
    if !db.available {
      return Err(Unavailable);
    }
    StatusCountsPartition(db.abandonedCarts);
    return Ok(Stats(db.abandonedCarts));
  }
}
