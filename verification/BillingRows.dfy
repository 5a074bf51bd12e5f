/** What a processed delivery leaves in each field of the row it writes, and how long that lasts. */
module BillingRows {
  import opened Basics
  import opened Billing
  import opened BillingRuns

  // ---- Outcomes -----------------------------------------------------------------------------------

  /**
   * Which answer a delivery gets: refused without a signature, id or type, skipped with an id that the ledger has, and
   * otherwise processed if and only if nothing raises and the database allows the handler's rows. Then the handler's
   * rows are there and the ledger has the event's type and time.
   */
  lemma OutcomeExactlyWhen(prices: Prices, db: Db, d: Delivery)
    ensures var (db', r), worked := Deliver(prices, db, d), Dispatch(prices, db, d.kind, d.obj, d.now);
      && (r == BadRequest <==> !d.signed || d.id.None? || d.kind == "")
      && (r == Duplicate <==> d.signed && d.kind != "" && d.id.Some? && d.id.value in db.ledger)
      && (r == Processed <==> Dispatched(db, d) && !d.fault && RowsAllowed(worked.subs, worked.invoices))
      && (r == Processed ==> d.id.Some?)
      && (r == Processed ==>
            db' == Db(db.users, worked.subs, worked.invoices, db.ledger[d.id.value := LedgerRow(d.kind, Some(d.now))]))
      && (r != Processed ==> db' == db)
  {
    hide RowsAllowed, OnCheckout, OnUpsert, OnDeleted, OnInvoice;
    HandlersKeepUsers(prices, db, d);
  }

  lemma HandlersKeepUsers(prices: Prices, db: Db, d: Delivery)
    ensures var worked := Dispatch(prices, db, d.kind, d.obj, d.now);
      worked.users == db.users && worked.ledger == db.ledger
  {
    hide Resolve, Upserted, LatestOf, FindByStripe, FindInvoice;
  }

  const HANDLED := ["checkout.session.completed", "customer.subscription.created", "customer.subscription.updated",
                    "customer.subscription.deleted", "invoice.paid", "invoice.payment_failed"]

  /** The handler that an event type reaches. */
  lemma DispatchMeans(prices: Prices, db: Db, kind: string, o: Object, now: int)
    ensures var worked := Dispatch(prices, db, kind, o, now);
      && (kind == "checkout.session.completed" ==> worked == OnCheckout(db, o, now))
      && (kind == "customer.subscription.created" ==> worked == OnUpsert(prices, db, o, now))
      && (kind == "customer.subscription.updated" ==> worked == OnUpsert(prices, db, o, now))
      && (kind == "customer.subscription.deleted" ==> worked == OnDeleted(db, o, now))
      && (kind == "invoice.paid" ==> worked == OnInvoice(db, o, "paid"))
      && (kind == "invoice.payment_failed" ==> worked == OnInvoice(db, o, "open"))
      && (kind !in HANDLED ==> worked == db)
  {
    hide OnCheckout, OnUpsert, OnDeleted, OnInvoice;
    KindsDiffer();
  }

  lemma KindsDiffer()
    ensures "customer.subscription.created" != "checkout.session.completed"
    ensures "customer.subscription.updated" != "checkout.session.completed"
    ensures "customer.subscription.deleted" !in
      ["checkout.session.completed", "customer.subscription.created", "customer.subscription.updated"]
    ensures "invoice.paid" !in ["checkout.session.completed", "customer.subscription.created",
                                "customer.subscription.updated", "customer.subscription.deleted"]
    ensures "invoice.payment_failed" !in ["checkout.session.completed", "customer.subscription.created",
                                          "customer.subscription.updated", "customer.subscription.deleted", "invoice.paid"]
  {
    assert "checkout.session.completed"[1] == 'h' && "customer.subscription.created"[1] == 'u' &&
           "customer.subscription.updated"[1] == 'u' && "customer.subscription.deleted"[1] == 'u';
    assert "customer.subscription.created"[22] == 'c' && "customer.subscription.updated"[22] == 'u' &&
           "customer.subscription.deleted"[22] == 'd';
    assert "invoice.paid"[0] == 'i' && "invoice.payment_failed"[0] == 'i' && "checkout.session.completed"[0] == 'c' &&
           "customer.subscription.created"[0] == 'c' && "customer.subscription.updated"[0] == 'c' &&
           "customer.subscription.deleted"[0] == 'c';
    assert |"invoice.paid"| == 12 && |"invoice.payment_failed"| == 22;
  }

  /** Whose event it is: the user it names, if known, or else the owner of the first row with its customer, if known. */
  lemma ResolveMeans(db: Db, o: Object)
    ensures o.user.Some? && o.user.value in db.users ==> Resolve(db, o) == o.user
    ensures !(o.user.Some? && o.user.value in db.users) && o.customer.None? ==> Resolve(db, o) == None
    ensures !(o.user.Some? && o.user.value in db.users) && o.customer.Some? ==>
      var i := FindByCustomer(db.subs, o.customer.value);
      Resolve(db, o) == if i < |db.subs| && db.subs[i].user in db.users then Some(db.subs[i].user) else None
  {
  }

  // ---- Fields -------------------------------------------------------------------------------------

  /** The given value, or else the one from before. */
  function Or<T>(given: Option<T>, before: Option<T>): Option<T> { if given.Some? then given else before }

  /**
   * A subscription event gives the row it writes its id and status, and its customer, period and plan where it carries
   * them; a cancelled status stamps the time; the owner of an existing row stays.
   */
  lemma UpsertFields(prices: Prices, db: Db, o: Object, now: int)
    requires Resolve(db, o).Some?
    ensures var user := Resolve(db, o).value;
      var i, db' := UpsertRow(db, user, o.id), OnUpsert(prices, db, o, now);
      var status := if o.status.Some? then o.status.value else "incomplete";
      var planned := o.price.Some? && o.price.value in prices;
      && OnlyRowChanged(db.subs, db'.subs, i) && db'.invoices == db.invoices
      && db'.subs[i] == if i < |db.subs| then
           var s := db.subs[i];
           Subscription(s.user, if planned then prices[o.price.value] else s.plan, status, o.id, Or(o.customer, s.customer),
                        Or(o.periodStart, s.periodStart), Or(o.periodEnd, s.periodEnd),
                        if status == "canceled" then Some(now) else s.canceledAt)
         else
           Subscription(user, if planned then prices[o.price.value] else "pro_monthly", status, o.id, o.customer,
                        o.periodStart, o.periodEnd, if status == "canceled" then Some(now) else None)
  {
    hide Resolve, LatestOf, FindByStripe;
  }

  /**
   * A checkout links the customer to the user's newest row if it has none; a one-time payment makes that row active
   * from now on without an end, for the plan paid for.
   */
  lemma CheckoutFields(db: Db, o: Object, now: int)
    requires Resolve(db, o).Some?
    ensures var user := Resolve(db, o).value;
      var i, db' := LatestOf(db.subs, user), OnCheckout(db, o, now);
      && OnlyRowChanged(db.subs, db'.subs, i) && db'.invoices == db.invoices
      && db'.subs[i].user == user
      && db'.subs[i].customer == (if i < |db.subs| && db.subs[i].customer.Some? then db.subs[i].customer else o.customer)
      && db'.subs[i].stripeId == (if i < |db.subs| then db.subs[i].stripeId else None)
      && db'.subs[i].canceledAt == (if i < |db.subs| then db.subs[i].canceledAt else None)
      && (if o.mode == "payment" then
            && db'.subs[i].plan == (if o.planCode.Some? then o.planCode.value else "lifetime")
            && db'.subs[i].status == "active" && db'.subs[i].periodStart == Some(now) && db'.subs[i].periodEnd == None
          else
            && db'.subs[i].plan == (if i < |db.subs| then db.subs[i].plan else "pro_monthly")
            && db'.subs[i].status == (if i < |db.subs| then db.subs[i].status else "incomplete")
            && db'.subs[i].periodStart == (if i < |db.subs| then db.subs[i].periodStart else None)
            && db'.subs[i].periodEnd == (if i < |db.subs| then db.subs[i].periodEnd else None))
  {
    hide Resolve;
  }

  /**
   * An invoice event of a known user writes the reported amount, currency and status into the row with its id, adding
   * one for that user if there is none; a payment time and a link are kept unless it brings new ones.
   */
  lemma InvoiceFields(db: Db, o: Object, status: string)
    requires Resolve(db, o).Some? && o.id.Some?
    ensures var i, db' := FindInvoice(db.invoices, o.id.value), OnInvoice(db, o, status);
      var amount := if o.amountPaid.Some? then o.amountPaid.value else if o.amountDue.Some? then o.amountDue.value else 0;
      var paidAt := if status == "paid" then o.paidAt else None;
      && OnlyRowChanged(db.invoices, db'.invoices, i) && db'.subs == db.subs
      && db'.invoices[i] == if i < |db.invoices| then
           var v := db.invoices[i];
           Invoice(v.user, v.stripeId, amount, o.currency, status, Or(paidAt, v.paidAt), Or(o.hostedUrl, v.hostedUrl))
         else Invoice(Resolve(db, o).value, o.id.value, amount, o.currency, status, paidAt, o.hostedUrl)
  {
    hide Resolve, FindInvoice;
  }

  // ---- Deliveries ---------------------------------------------------------------------------------

  /** A sound invoice event of a known user leaves its invoice paid or open, as it reports, with the reported amount. */
  lemma InvoiceEventRecorded(prices: Prices, db: Db, d: Delivery)
    requires Dispatched(db, d) && !d.fault && d.kind in ["invoice.paid", "invoice.payment_failed"]
    requires UniqueIds(db) && RowsAllowed(db.subs, db.invoices)
    requires Resolve(db, d.obj).Some? && d.obj.id.Some? && 0 <= Amount(d.obj)
    ensures var (db', r), i := Deliver(prices, db, d), FindInvoice(db.invoices, d.obj.id.value);
      && r == Processed && OnlyRowChanged(db.invoices, db'.invoices, i) && db'.subs == db.subs
      && db'.invoices[i].stripeId == d.obj.id.value && db'.invoices[i].amount == Amount(d.obj)
      && db'.invoices[i].status == (if d.kind == "invoice.paid" then "paid" else "open")
      && (d.kind == "invoice.paid" && d.obj.paidAt.Some? ==> db'.invoices[i].paidAt == d.obj.paidAt)
  {
    hide Resolve, RowsAllowed, UniqueIds, OnInvoice, Dispatch, Deliver, FindInvoice;
    var status := if d.kind == "invoice.paid" then "paid" else "open";
    OutcomeExactlyWhen(prices, db, d);
    KindsDiffer();
    DispatchMeans(prices, db, d.kind, d.obj, d.now);
    InvoiceAccepted(db, d.obj, status);
    InvoiceFields(db, d.obj, status);
  }

  /**
   * A sound deletion event whose Stripe id a row carries cancels exactly that row, stamps it with the time of the
   * delivery and changes nothing else.
   */
  lemma DeletionEventCancels(prices: Prices, db: Db, d: Delivery, i: nat)
    requires Dispatched(db, d) && !d.fault && d.kind == "customer.subscription.deleted"
    requires UniqueIds(db) && RowsAllowed(db.subs, db.invoices)
    requires d.obj.id.Some? && i < |db.subs| && db.subs[i].stripeId == d.obj.id
    ensures var (db', r) := Deliver(prices, db, d);
      && r == Processed
      && db'.subs == db.subs[i := db.subs[i].(status := "canceled", canceledAt := Some(d.now))]
      && db'.invoices == db.invoices
  {
    hide Dispatch, Deliver;
    OutcomeExactlyWhen(prices, db, d);
    DispatchMeans(prices, db, d.kind, d.obj, d.now);
    assert FindByStripe(db.subs, d.obj.id) == i;
  }

  predicate Upserts(d: Delivery) { d.kind == "customer.subscription.created" || d.kind == "customer.subscription.updated" }

  /** The delivery gives row i a status of its own: by a subscription event, or by a one-time payment. */
  predicate Rewrites(prices: Prices, db: Db, d: Delivery, i: nat) {
    && Deliver(prices, db, d).1 == Processed && Resolve(db, d.obj).Some?
    && ((Upserts(d) && UpsertRow(db, Resolve(db, d.obj).value, d.obj.id) == i) ||
        (d.kind == "checkout.session.completed" && d.obj.mode == "payment" && LatestOf(db.subs, Resolve(db, d.obj).value) == i))
  }

  /** A delivery changes the status of an existing row in exactly three cases. */
  lemma StatusChangesExactlyWhen(prices: Prices, db: Db, d: Delivery, i: nat)
    requires i < |db.subs|
    ensures var (db', r) := Deliver(prices, db, d);
      && i < |db'.subs|
      && db'.subs[i].status ==
           if Rewrites(prices, db, d, i) then (if Upserts(d) then d.obj.status.GetOr("incomplete") else "active")
           else if r == Processed && d.kind == "customer.subscription.deleted" && FindByStripe(db.subs, d.obj.id) == i then "canceled"
           else db.subs[i].status
  {
    hide Dispatch, Deliver, OnUpsert, OnCheckout, OnInvoice, Resolve, LatestOf, FindByStripe, FindInvoice, UpsertRow;
    OutcomeExactlyWhen(prices, db, d);
    KindsDiffer();
    DispatchMeans(prices, db, d.kind, d.obj, d.now);
    SubscriptionsKept(db, d.obj);
    if Resolve(db, d.obj).Some? {
      UpsertFields(prices, db, d.obj, d.now);
      CheckoutFields(db, d.obj, d.now);
    } else {
      UnknownUser(prices, db, d.obj, d.now);
    }
  }

  lemma SubscriptionsKept(db: Db, o: Object)
    ensures OnInvoice(db, o, "paid").subs == db.subs && OnInvoice(db, o, "open").subs == db.subs
  {
    hide Resolve, FindInvoice;
  }

  lemma UnknownUser(prices: Prices, db: Db, o: Object, now: int)
    requires Resolve(db, o).None?
    ensures OnUpsert(prices, db, o, now) == db && OnCheckout(db, o, now) == db
  {
    hide Resolve;
  }

  /** A cancelled row stays cancelled over any deliveries until a subscription event or a one-time payment writes it. */
  lemma {:induction false} CanceledStays(prices: Prices, db: Db, ds: seq<Delivery>, i: nat)
    requires i < |db.subs| && db.subs[i].status == "canceled"
    requires forall k :: 0 <= k < |ds| ==> !Rewrites(prices, Run(prices, db, ds[..k]), ds[k], i)
    ensures var db' := Run(prices, db, ds);
      i < |db'.subs| && db'.subs[i].status == "canceled"
  {
    hide Deliver, Rewrites;
    if ds != [] {
      var n := |ds| - 1;
      forall k | 0 <= k < n ensures ds[..n][..k] == ds[..k] {}
      CanceledStays(prices, db, ds[..n], i);
      StatusChangesExactlyWhen(prices, Run(prices, db, ds[..n]), ds[n], i);
    }
  }

  /** So a deletion lasts until then. */
  lemma DeletionLasts(prices: Prices, db: Db, d: Delivery, ds: seq<Delivery>, i: nat)
    requires Dispatched(db, d) && !d.fault && d.kind == "customer.subscription.deleted"
    requires UniqueIds(db) && RowsAllowed(db.subs, db.invoices)
    requires d.obj.id.Some? && i < |db.subs| && db.subs[i].stripeId == d.obj.id
    requires forall k :: 0 <= k < |ds| ==> !Rewrites(prices, Run(prices, Deliver(prices, db, d).0, ds[..k]), ds[k], i)
    ensures var db' := Run(prices, Deliver(prices, db, d).0, ds);
      i < |db'.subs| && db'.subs[i].status == "canceled"
  {
    hide Deliver, Rewrites;
    DeletionEventCancels(prices, db, d, i);
    CanceledStays(prices, Deliver(prices, db, d).0, ds, i);
  }
}
