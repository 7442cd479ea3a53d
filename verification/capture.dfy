/** The `POST /api/leads/capture` endpoint: it validates the checkout form
    (both required fields present, an email of the shape `a@b.c`), fills in
    defaults for the cart, captures the lead and turns the outcome into an
    HTTP status and a JSON reply. */
module LeadCapture {
  import opened Common
  import opened Schema
  import Leads

  const Required := "Email e nome são obrigatórios"
  const InvalidEmail := "Email inválido"
  const SaveFailed := "Erro ao salvar dados"

  /** The fields read from the JSON body. For the fields the handler tests
      or defaults, `None` is a missing or null field; the phone is passed on
      as it came, so there a missing field and `null` are told apart. The
      cart total is in cents. */
  datatype Body = Body(
    email: Option<string>,
    name: Option<string>,
    phone: JsonField<string>,
    cartItems: Option<seq<CartItem>>,
    cartTotalCents: Option<int>)

  /** The JSON reply; a success reply also carries `success: true`. */
  datatype Reply = Error(error: string) | Success(leadId: Id, isNewLead: bool)

  datatype Response = Response(status: int, reply: Reply)

  // ---------------------------------------------------------------------
  // The email pattern ^[^\s@]+@[^\s@]+\.[^\s@]+$
  // ---------------------------------------------------------------------

  /** The characters of the JavaScript class `\s`. */
  predicate IsJsSpace(c: char)
  {
    c == '\t' || c == '\n' || c == '\U{0B}' || c == '\U{0C}' || c == '\r' || c == ' '
    || c == '\U{A0}' || c == '\U{1680}' || ('\U{2000}' <= c <= '\U{200A}')
    || c == '\U{2028}' || c == '\U{2029}' || c == '\U{202F}' || c == '\U{205F}'
    || c == '\U{3000}' || c == '\U{FEFF}'
  }

  /** `[^\s@]+`: a non-empty run of characters that are neither space nor `@`. */
  predicate IsRun(s: string)
  {
    |s| > 0 && forall k :: 0 <= k < |s| ==> !IsJsSpace(s[k]) && s[k] != '@'
  }

  /** The pattern matches `s` with its `@` at `i` and its escaped `.` at `j`. */
  predicate MatchesAt(s: string, i: int, j: int)
  {
    0 <= i < j < |s| && s[i] == '@' && s[j] == '.'
    && IsRun(s[..i]) && IsRun(s[i + 1..j]) && IsRun(s[j + 1..])
  }

  /** `emailRegex.test(s)`: some placement of `@` and `.` matches. */
  predicate EmailRegexTest(s: string)
  {
    exists i, j | 0 <= i < j < |s| :: MatchesAt(s, i, j)
  }

  /** The shape the pattern accepts, described without it: no whitespace,
      exactly one `@`, not first, and a `.` after it with at least one
      character on each side. */
  predicate EmailShape(s: string)
  {
    (forall k :: 0 <= k < |s| ==> !IsJsSpace(s[k]))
    && exists i :: 0 < i < |s| && s[i] == '@'
         && (forall k :: 0 <= k < |s| && k != i ==> s[k] != '@')
         && (exists j :: i + 1 < j < |s| - 1 && s[j] == '.')
  }

  /** The pattern accepts exactly the strings of that shape. */
  lemma EmailRegexShape(s: string)
    ensures EmailRegexTest(s) <==> EmailShape(s)
  {
    if EmailRegexTest(s) {
      var i, j :| 0 <= i < j < |s| && MatchesAt(s, i, j);
      forall k | 0 <= k < |s| && k != i
        ensures !IsJsSpace(s[k]) && s[k] != '@'
      {
        if k < i {
          assert s[..i][k] == s[k];
        } else if i < k < j {
          assert s[i + 1..j][k - i - 1] == s[k];
        } else if k > j {
          assert s[j + 1..][k - j - 1] == s[k];
        }
      }
      assert 0 < i && s[i] == '@' && i + 1 < j < |s| - 1;
    }
    if EmailShape(s) {
      var i :| 0 < i < |s| && s[i] == '@'
               && (forall k :: 0 <= k < |s| && k != i ==> s[k] != '@')
               && (exists j :: i + 1 < j < |s| - 1 && s[j] == '.');
      var j :| i + 1 < j < |s| - 1 && s[j] == '.';
      assert IsRun(s[..i]);
      var domain, top := s[i + 1..j], s[j + 1..];
      forall k | 0 <= k < |domain|
        ensures !IsJsSpace(domain[k]) && domain[k] != '@'
      {
        assert domain[k] == s[i + 1 + k];
      }
      forall k | 0 <= k < |top|
        ensures !IsJsSpace(top[k]) && top[k] != '@'
      {
        assert top[k] == s[j + 1 + k];
      }
      assert MatchesAt(s, i, j);
    }
  }

  /** An ordinary address is accepted. */
  lemma EmailRegexAccepts()
    ensures EmailRegexTest("ana@loja.com")
  {
    assert MatchesAt("ana@loja.com", 3, 8) by {
      assert "ana@loja.com"[..3] == "ana";
      assert "ana@loja.com"[4..8] == "loja";
      assert "ana@loja.com"[9..] == "com";
    }
  }

  /** An address without a dot after the `@` is rejected. */
  lemma EmailRegexNeedsDot()
    ensures !EmailRegexTest("ana@lojacom")
  {
    EmailRegexShape("ana@lojacom");
  }

  /** An address with two `@` is rejected. */
  lemma EmailRegexSingleAt()
    ensures !EmailRegexTest("ana@@loja.com")
  {
    EmailRegexShape("ana@@loja.com");
    assert "ana@@loja.com"[3] == '@' && "ana@@loja.com"[4] == '@';
  }

  /** An address with a space in it is rejected. */
  lemma EmailRegexNoSpace()
    ensures !EmailRegexTest("ana @loja.com")
  {
    EmailRegexShape("ana @loja.com");
    assert IsJsSpace("ana @loja.com"[3]);
  }

  // ---------------------------------------------------------------------
  // The handler
  // ---------------------------------------------------------------------

  /** The validation chain: the 400 message, or the lead to capture with
      the cart defaulted to empty and the total to zero. */
  function Validate(body: Body): Result<Leads.LeadData, string>
  {
    if !Truthy(body.email) || !Truthy(body.name) then Err(Required)
    else if !EmailRegexTest(body.email.value) then Err(InvalidEmail)
    else Ok(Leads.LeadData(
      body.email.value,
      body.name.value,
      body.phone,
      if body.cartItems.Some? then body.cartItems.value else [],
      if body.cartTotalCents.Some? then body.cartTotalCents.value else 0))
  }

  /** Missing fields are reported before a malformed email; a body passes
      exactly when both fields are present and the email has the accepted
      shape, and then it is passed on unchanged apart from the defaults. */
  lemma ValidateOutcome(body: Body)
    ensures Validate(body) == Err(Required) <==> !Truthy(body.email) || !Truthy(body.name)
    ensures Validate(body) == Err(InvalidEmail) <==>
      Truthy(body.email) && Truthy(body.name) && !EmailShape(body.email.value)
    ensures Validate(body).Ok? <==>
      Truthy(body.email) && Truthy(body.name) && EmailShape(body.email.value)
    ensures Validate(body).Ok? ==>
      var d := Validate(body).value;
      d.email == body.email.value && d.name == body.name.value && d.phone == body.phone
      && (body.cartItems.None? ==> d.cartItems == []) && (body.cartItems.Some? ==> d.cartItems == body.cartItems.value)
      && (body.cartTotalCents.None? ==> d.cartTotalCents == 0)
      && (body.cartTotalCents.Some? ==> d.cartTotalCents == body.cartTotalCents.value)
  {
    if Truthy(body.email) {
      EmailRegexShape(body.email.value);
    }
  }

  /** A 500 reply carries the exception's message, or a default one when
      the message is empty. */
  function ServerError(message: string): (r: Response)
    ensures r.status == 500 && r.reply.Error? && r.reply.error != ""
    ensures message != "" ==> r.reply.error == message
    ensures message == "" ==> r.reply.error == SaveFailed
  {
    Response(500, Error(if message == "" then SaveFailed else message))
  }

  /** The reply and the new lead table for a request whose body parsed to
      `request` (or failed to parse with that message), on a database that
      is or is not `available`. */
  function Handle(request: Result<Body, string>, available: bool, customers: seq<Customer>,
                  rows: seq<AbandonedCart>, newId: Id, now: Timestamp): (Response, seq<AbandonedCart>)
  {
    match request
    case Err(message) => (ServerError(message), rows)
    case Ok(body) =>
      match Validate(body)
      case Err(message) => (Response(400, Error(message)), rows)
      case Ok(data) =>
        if !available then (ServerError(Leads.Unavailable), rows)
        else
          var (result, rows') := Leads.Capture(customers, rows, data, newId, now);
          (Response(200, Success(result.id, result.isNewLead)), rows')
  }

  /** Every reply is 200, 400 or 500; only a 200 can change the lead table,
      and a 200 is given exactly to a valid body on an available database. */
  lemma HandleStatus(request: Result<Body, string>, available: bool, customers: seq<Customer>,
                     rows: seq<AbandonedCart>, newId: Id, now: Timestamp)
    ensures var (resp, rows') := Handle(request, available, customers, rows, newId, now);
      (resp.status == 200 || resp.status == 400 || resp.status == 500)
      && (resp.status != 200 ==> rows' == rows && resp.reply.Error?)
      && (resp.status == 200 <==> request.Ok? && Validate(request.value).Ok? && available)
      && (resp.status == 400 <==> request.Ok? && Validate(request.value).Err?)
  {
  }

  /** A body without an email or a name is refused with 400 and nothing is
      captured, whatever else it holds. */
  lemma HandleRejectsMissingFields(body: Body, available: bool, customers: seq<Customer>,
                                   rows: seq<AbandonedCart>, newId: Id, now: Timestamp)
    requires !Truthy(body.email) || !Truthy(body.name)
    ensures Handle(Ok(body), available, customers, rows, newId, now) == (Response(400, Error(Required)), rows)
  {
  }

  /** A body whose email does not have the accepted shape is refused with
      400 and nothing is captured. */
  lemma HandleRejectsMalformedEmail(body: Body, available: bool, customers: seq<Customer>,
                                    rows: seq<AbandonedCart>, newId: Id, now: Timestamp)
    requires Truthy(body.email) && Truthy(body.name)
    requires !EmailShape(body.email.value)
    ensures Handle(Ok(body), available, customers, rows, newId, now) == (Response(400, Error(InvalidEmail)), rows)
  {
    ValidateOutcome(body);
  }

  /** A valid body on an available database is captured with the cart
      defaults, and the reply copies the lead id and the new-lead flag. */
  lemma HandleCapturesValidBody(body: Body, customers: seq<Customer>,
                                rows: seq<AbandonedCart>, newId: Id, now: Timestamp)
    requires Truthy(body.email) && Truthy(body.name) && EmailShape(body.email.value)
    ensures var data := Leads.LeadData(body.email.value, body.name.value, body.phone,
                                       if body.cartItems.Some? then body.cartItems.value else [],
                                       if body.cartTotalCents.Some? then body.cartTotalCents.value else 0);
      var (result, rows') := Leads.Capture(customers, rows, data, newId, now);
      Handle(Ok(body), true, customers, rows, newId, now)
        == (Response(200, Success(result.id, result.isNewLead)), rows')
  {
    ValidateOutcome(body);
  }

  /** `POST`: the handler on the database. */
  method Post(db: Database, request: Result<Body, string>, newId: Id, now: Timestamp) returns (resp: Response)
    requires db.Valid()
    requires forall k :: 0 <= k < |db.abandonedCarts| ==> db.abandonedCarts[k].id != newId
    modifies db`abandonedCarts
    ensures db.Valid()
    ensures (resp, db.abandonedCarts) == Handle(request, db.available, db.customers, old(db.abandonedCarts), newId, now)
  {
    if request.Err? {
      return ServerError(request.error);
    }
    var checked := Validate(request.value);
    if checked.Err? {
      return Response(400, Error(checked.error));
    }
    var result := Leads.CaptureCheckoutLead(db, checked.value, newId, now);
    match result
    case Err(message) =>
      resp := ServerError(message);
    case Ok(r) =>
      resp := Response(200, Success(r.id, r.isNewLead));
  }
}
