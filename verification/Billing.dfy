/** The Stripe webhook: one transaction per delivery, an event ledger, and the handlers that change billing rows. */
module Billing {
  import opened Basics

  type User = int

  datatype Subscription = Subscription(
    user: User, plan: string, status: string, stripeId: Option<string>, customer: Option<string>,
    periodStart: Option<int>, periodEnd: Option<int>, canceledAt: Option<int>)

  datatype Invoice = Invoice(
    user: User, stripeId: string, amount: int, currency: string, status: string,
    paidAt: Option<int>, hostedUrl: Option<string>)

  datatype LedgerRow = LedgerRow(kind: string, processedAt: Option<int>)

  /** Rows are in order of creation; the ledger's key is its unique event id. */
  datatype Db = Db(users: set<User>, subs: seq<Subscription>, invoices: seq<Invoice>, ledger: map<string, LedgerRow>)

  /** The object of an event. `None` stands for an absent or empty field. */
  datatype Object = Object(
    id: Option<string>, customer: Option<string>, user: Option<User>, planCode: Option<string>, mode: string,
    status: Option<string>, periodStart: Option<int>, periodEnd: Option<int>, price: Option<string>,
    amountPaid: Option<int>, amountDue: Option<int>, currency: string, paidAt: Option<int>, hostedUrl: Option<string>)

  /** One delivery by Stripe; `fault` says that something inside the dispatch raises. */
  datatype Delivery = Delivery(signed: bool, id: Option<string>, kind: string, obj: Object, now: int, fault: bool)

  datatype Outcome = BadRequest | Duplicate | Failed | Processed

  type Prices = map<string, string>

  // ---- Queries ------------------------------------------------------------------------------------

  /** The first row with the given Stripe id, or the number of rows; a missing id matches rows without one. */
  function FindByStripe(subs: seq<Subscription>, id: Option<string>): (i: nat)
    ensures i <= |subs| && (i < |subs| ==> subs[i].stripeId == id)
    ensures forall n :: 0 <= n < i ==> subs[n].stripeId != id
  {
    if subs == [] || subs[0].stripeId == id then 0 else 1 + FindByStripe(subs[1..], id)
  }

  function FindByCustomer(subs: seq<Subscription>, customer: string): (i: nat)
    ensures i <= |subs| && (i < |subs| ==> subs[i].customer == Some(customer))
    ensures forall n :: 0 <= n < i ==> subs[n].customer != Some(customer)
  {
    if subs == [] || subs[0].customer == Some(customer) then 0 else 1 + FindByCustomer(subs[1..], customer)
  }

  /** The newest row of a user, or the number of rows. */
  function LatestOf(subs: seq<Subscription>, user: User): (i: nat)
    ensures i <= |subs| && (i < |subs| ==> subs[i].user == user)
    ensures i < |subs| ==> forall n :: i < n < |subs| ==> subs[n].user != user
    ensures i == |subs| ==> forall n :: 0 <= n < |subs| ==> subs[n].user != user
  {
    if subs == [] then 0
    else if subs[|subs| - 1].user == user then |subs| - 1
    else
      var i := LatestOf(subs[..|subs| - 1], user);
      if i == |subs| - 1 then |subs| else i
  }

  function FindInvoice(invoices: seq<Invoice>, id: string): (i: nat)
    ensures i <= |invoices| && (i < |invoices| ==> invoices[i].stripeId == id)
    ensures forall n :: 0 <= n < i ==> invoices[n].stripeId != id
  {
    if invoices == [] || invoices[0].stripeId == id then 0 else 1 + FindInvoice(invoices[1..], id)
  }

  function Resolve(db: Db, o: Object): Option<User> {
    if o.user.Some? && o.user.value in db.users then o.user
    else if o.customer.None? then None
    else
      var i := FindByCustomer(db.subs, o.customer.value);
      if i < |db.subs| && db.subs[i].user in db.users then Some(db.subs[i].user) else None
  }

  function PlanFor(prices: Prices, price: Option<string>): Option<string> {
    if price.Some? && price.value in prices then Some(prices[price.value]) else None
  }

  function Amount(o: Object): int {
    if o.amountPaid.Some? then o.amountPaid.value else o.amountDue.GetOr(0)
  }

  // ---- Handlers -----------------------------------------------------------------------------------

  function Put<T>(s: seq<T>, i: nat, x: T): seq<T>
    requires i <= |s|
  {
    if i < |s| then s[i := x] else s + [x]
  }

  function OnCheckout(db: Db, o: Object, now: int): Db {
    var user := Resolve(db, o);
    if user.None? then db else
      var i := LatestOf(db.subs, user.value);
      var row :=
        if i == |db.subs| then Subscription(user.value, "pro_monthly", "incomplete", None, o.customer, None, None, None)
        else if db.subs[i].customer.None? then db.subs[i].(customer := o.customer)
        else db.subs[i];
      var row' := if o.mode != "payment" then row else
        row.(plan := o.planCode.GetOr("lifetime"), status := "active", periodStart := Some(now), periodEnd := None);
      db.(subs := Put(db.subs, i, row'))
  }

  /** The row an upsert writes: the one with the event's Stripe id, else the user's newest, else a new one. */
  function UpsertRow(db: Db, user: User, id: Option<string>): nat {
    var i := FindByStripe(db.subs, id);
    if i < |db.subs| then i else LatestOf(db.subs, user)
  }

  function Upserted(prices: Prices, prior: Option<Subscription>, user: User, o: Object, now: int): Subscription {
    var plan, status := PlanFor(prices, o.price), o.status.GetOr("incomplete");
    var row := match prior
      case None => Subscription(user, plan.GetOr("pro_monthly"), status, o.id, o.customer, None, None, None)
      case Some(s) => s.(stripeId := o.id, customer := if o.customer.Some? then o.customer else s.customer,
                         plan := plan.GetOr(s.plan), status := status);
    row.(periodStart := if o.periodStart.Some? then o.periodStart else row.periodStart,
         periodEnd := if o.periodEnd.Some? then o.periodEnd else row.periodEnd,
         canceledAt := if status == "canceled" then Some(now) else row.canceledAt)
  }

  function OnUpsert(prices: Prices, db: Db, o: Object, now: int): Db {
    var user := Resolve(db, o);
    if user.None? then db else
      var i := UpsertRow(db, user.value, o.id);
      var row := Upserted(prices, if i < |db.subs| then Some(db.subs[i]) else None, user.value, o, now);
      db.(subs := Put(db.subs, i, row))
  }

  function OnDeleted(db: Db, o: Object, now: int): Db {
    var i := FindByStripe(db.subs, o.id);
    if i == |db.subs| then db
    else db.(subs := db.subs[i := db.subs[i].(status := "canceled", canceledAt := Some(now))])
  }

  function OnInvoice(db: Db, o: Object, status: string): Db {
    var user := Resolve(db, o);
    if user.None? || o.id.None? then db else
      var i := FindInvoice(db.invoices, o.id.value);
      var paidAt := if status == "paid" then o.paidAt else None;
      var row :=
        if i == |db.invoices|
        then Invoice(user.value, o.id.value, Amount(o), o.currency, status, paidAt, o.hostedUrl)
        else
          var prior := db.invoices[i];
          prior.(amount := Amount(o), currency := o.currency, status := status,
               paidAt := if paidAt.Some? then paidAt else prior.paidAt,
               hostedUrl := if o.hostedUrl.Some? then o.hostedUrl else prior.hostedUrl);
      db.(invoices := Put(db.invoices, i, row))
  }

  function Dispatch(prices: Prices, db: Db, kind: string, o: Object, now: int): Db {
    if kind == "checkout.session.completed" then OnCheckout(db, o, now)
    else if kind == "customer.subscription.created" || kind == "customer.subscription.updated" then
      OnUpsert(prices, db, o, now)
    else if kind == "customer.subscription.deleted" then OnDeleted(db, o, now)
    else if kind == "invoice.paid" then OnInvoice(db, o, "paid")
    else if kind == "invoice.payment_failed" then OnInvoice(db, o, "open")
    else db
  }

  // ---- The transaction ----------------------------------------------------------------------------

  predicate SubscriptionAllowed(s: Subscription) {
    s.plan in ["trial", "pro_monthly", "pro_yearly", "lifetime"] &&
    s.status in ["active", "past_due", "canceled", "trialing"]
  }

  predicate InvoiceAllowed(i: Invoice) { 0 <= i.amount }

  /** The checks the database makes on every row before it commits. */
  predicate RowsAllowed(subs: seq<Subscription>, invoices: seq<Invoice>) {
    && (forall i :: 0 <= i < |subs| ==> SubscriptionAllowed(subs[i]))
    && (forall i :: 0 <= i < |invoices| ==> InvoiceAllowed(invoices[i]))
  }

  function Deliver(prices: Prices, db: Db, d: Delivery): (Db, Outcome) {
    if !d.signed || d.id.None? || d.kind == "" then (db, BadRequest)
    else if d.id.value in db.ledger then (db, Duplicate)
    else
      var worked := Dispatch(prices, db, d.kind, d.obj, d.now);
      if d.fault || !RowsAllowed(worked.subs, worked.invoices) then (db, Failed)
      else (worked.(ledger := db.ledger[d.id.value := LedgerRow(d.kind, Some(d.now))]), Processed)
  }

  class Service {
    const prices: Prices
    var users: set<User>
    var subs: seq<Subscription>
    var invoices: seq<Invoice>
    var ledger: map<string, LedgerRow>

    function Model(): Db
      reads this
    {
      Db(users, subs, invoices, ledger)
    }

    constructor (prices: Prices, db: Db)
      ensures this.prices == prices && Model() == db
    {
      this.prices := prices;
      users, subs, invoices, ledger := db.users, db.subs, db.invoices, db.ledger;
    }

    method CheckoutCompleted(o: Object, now: int)
      modifies this`subs
      ensures Model() == OnCheckout(old(Model()), o, now)
    {
      var user := Resolve(Model(), o);
      if user.None? { return; }
      var i := LatestOf(subs, user.value);
      if i == |subs| {
        subs := subs + [Subscription(user.value, "pro_monthly", "incomplete", None, o.customer, None, None, None)];
      } else if o.customer.Some? && subs[i].customer.None? {
        subs := subs[i := subs[i].(customer := o.customer)];
      }
      if o.mode == "payment" {
        subs := subs[i := subs[i].(plan := o.planCode.GetOr("lifetime"))];
        subs := subs[i := subs[i].(status := "active", periodStart := Some(now), periodEnd := None)];
      }
    }

    method SubscriptionUpsert(o: Object, now: int)
      modifies this`subs
      ensures Model() == OnUpsert(prices, old(Model()), o, now)
    {
      var user := Resolve(Model(), o);
      if user.None? { return; }
      var status := o.status.GetOr("incomplete");
      var plan := PlanFor(prices, o.price);
      var i := FindByStripe(subs, o.id);
      if i == |subs| { i := LatestOf(subs, user.value); }
      var row: Subscription;
      if i == |subs| {
        row := Subscription(user.value, plan.GetOr("pro_monthly"), status, o.id, o.customer, None, None, None);
      } else {
        row := subs[i].(stripeId := o.id);
        if o.customer.Some? { row := row.(customer := o.customer); }
        if plan.Some? { row := row.(plan := plan.value); }
        row := row.(status := status);
      }
      if o.periodStart.Some? { row := row.(periodStart := o.periodStart); }
      if o.periodEnd.Some? { row := row.(periodEnd := o.periodEnd); }
      if status == "canceled" { row := row.(canceledAt := Some(now)); }
      subs := Put(subs, i, row);
    }

    method SubscriptionDeleted(o: Object, now: int)
      modifies this`subs
      ensures Model() == OnDeleted(old(Model()), o, now)
    {
      var i := FindByStripe(subs, o.id);
      if i == |subs| { return; }
      subs := subs[i := subs[i].(status := "canceled", canceledAt := Some(now))];
    }

    method UpsertInvoice(o: Object, status: string)
      modifies this`invoices
      ensures Model() == OnInvoice(old(Model()), o, status)
    {
      var user := Resolve(Model(), o);
      if user.None? || o.id.None? { return; }
      var i := FindInvoice(invoices, o.id.value);
      var paidAt: Option<int> := None;
      if status == "paid" { paidAt := o.paidAt; }
      if i == |invoices| {
        invoices := invoices + [Invoice(user.value, o.id.value, Amount(o), o.currency, status, paidAt, o.hostedUrl)];
      } else {
        var row := invoices[i].(amount := Amount(o), currency := o.currency, status := status);
        if paidAt.Some? { row := row.(paidAt := paidAt); }
        if o.hostedUrl.Some? { row := row.(hostedUrl := o.hostedUrl); }
        invoices := invoices[i := row];
      }
    }

    method DispatchEvent(kind: string, o: Object, now: int)
      modifies this`subs, this`invoices
      ensures Model() == Dispatch(prices, old(Model()), kind, o, now)
    {
      if kind == "checkout.session.completed" {
        CheckoutCompleted(o, now);
      } else if kind == "customer.subscription.created" || kind == "customer.subscription.updated" {
        SubscriptionUpsert(o, now);
      } else if kind == "customer.subscription.deleted" {
        SubscriptionDeleted(o, now);
      } else if kind == "invoice.paid" {
        UpsertInvoice(o, "paid");
      } else if kind == "invoice.payment_failed" {
        UpsertInvoice(o, "open");
      }
    }

    /** Insert into the ledger, dispatch, mark processed and commit; a failure undoes everything, the ledger row too. */
    method HandleWebhook(d: Delivery) returns (r: Outcome)
      modifies this
      ensures (Model(), r) == Deliver(prices, old(Model()), d)
    {
      hide Dispatch, RowsAllowed;
      if !d.signed || d.id.None? || d.kind == "" { return BadRequest; }
      var saved := Model();
      if d.id.value in ledger { return Duplicate; }
      DispatchEvent(d.kind, d.obj, d.now);
      ledger := ledger[d.id.value := LedgerRow(d.kind, None)];
      if d.fault || !RowsAllowed(subs, invoices) {
        users, subs, invoices, ledger := saved.users, saved.subs, saved.invoices, saved.ledger;
        return Failed;
      }
      ledger := ledger[d.id.value := LedgerRow(d.kind, Some(d.now))];
      assert ledger == saved.ledger[d.id.value := LedgerRow(d.kind, Some(d.now))];
      r := Processed;
    }
  }
}
