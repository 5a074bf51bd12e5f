/** Webhook deliveries in any order, with duplicates and failures: each event takes effect once. */
module BillingRuns {
  import opened Basics
  import opened Billing

  function Run(prices: Prices, db: Db, ds: seq<Delivery>): Db {
    if ds == [] then db else Deliver(prices, Run(prices, db, ds[..|ds| - 1]), ds[|ds| - 1]).0
  }

  function OutcomeAt(prices: Prices, db: Db, ds: seq<Delivery>, i: nat): Outcome
    requires i < |ds|
  {
    Deliver(prices, Run(prices, db, ds[..i]), ds[i]).1
  }

  /** The deliveries that changed something, in order. */
  function Effective(prices: Prices, db: Db, ds: seq<Delivery>): seq<Delivery> {
    if ds == [] then [] else
      var i := |ds| - 1;
      Effective(prices, db, ds[..i]) + if OutcomeAt(prices, db, ds, i) == Processed then [ds[i]] else []
  }

  /** Answered without an error, which tells Stripe not to send it again. */
  predicate Accepted(o: Outcome) { o == Processed || o == Duplicate }

  lemma OnlyProcessedChanges(prices: Prices, db: Db, d: Delivery)
    ensures Deliver(prices, db, d).1 != Processed ==> Deliver(prices, db, d).0 == db
    ensures Deliver(prices, db, d).1 == Processed ==>
      d.id.Some? && d.id.value !in db.ledger &&
      Deliver(prices, db, d).0.ledger.Keys == db.ledger.Keys + {d.id.value}
    ensures Deliver(prices, db, d).1 == Duplicate ==> d.id.Some? && d.id.value in db.ledger
    ensures Accepted(Deliver(prices, db, d).1) ==> d.id.Some? && d.id.value in Deliver(prices, db, d).0.ledger
  {
    hide Dispatch, RowsAllowed;
  }

  /** Ledger entries are never lost. */
  lemma {:induction false} LedgerGrows(prices: Prices, db: Db, ds: seq<Delivery>, i: nat)
    requires i <= |ds|
    ensures Run(prices, db, ds[..i]).ledger.Keys <= Run(prices, db, ds).ledger.Keys
  {
    hide Deliver;
    if i < |ds| {
      var prior := ds[..|ds| - 1];
      LedgerGrows(prices, db, prior, i);
      assert prior[..i] == ds[..i];
      OnlyProcessedChanges(prices, Run(prices, db, prior), ds[|ds| - 1]);
    } else {
      assert ds[..i] == ds;
    }
  }

  /**
   * Whatever Stripe sends, in whatever order and however often, the database ends as if only the effective
   * deliveries had been sent, and each of those is effective there too.
   */
  lemma {:induction false} RunEqualsEffective(prices: Prices, db: Db, ds: seq<Delivery>)
    ensures Run(prices, db, Effective(prices, db, ds)) == Run(prices, db, ds)
    ensures Effective(prices, db, Effective(prices, db, ds)) == Effective(prices, db, ds)
  {
    hide Deliver;
    if ds != [] {
      var i := |ds| - 1;
      var before := Effective(prices, db, ds[..i]);
      RunEqualsEffective(prices, db, ds[..i]);
      OnlyProcessedChanges(prices, Run(prices, db, ds[..i]), ds[i]);
      if OutcomeAt(prices, db, ds, i) == Processed {
        assert (before + [ds[i]])[..|before|] == before;
      } else {
        assert before + [] == before;
      }
    }
  }

  /** Starting from an empty ledger, the effective delivery of an event is its first accepted one. */
  lemma EffectiveIsFirstAccepted(prices: Prices, db: Db, ds: seq<Delivery>, i: nat)
    requires db.ledger == map[] && i < |ds|
    ensures OutcomeAt(prices, db, ds, i) == Processed <==>
      Accepted(OutcomeAt(prices, db, ds, i)) &&
      forall j :: 0 <= j < i && ds[j].id == ds[i].id ==> !Accepted(OutcomeAt(prices, db, ds, j))
  {
    hide Deliver;
    var now := Run(prices, db, ds[..i]);
    OnlyProcessedChanges(prices, now, ds[i]);
    if OutcomeAt(prices, db, ds, i) == Processed {
      forall j | 0 <= j < i && ds[j].id == ds[i].id ensures !Accepted(OutcomeAt(prices, db, ds, j)) {
        OnlyProcessedChanges(prices, Run(prices, db, ds[..j]), ds[j]);
        RunOneMore(prices, db, ds, j);
        assert ds[..i][..j + 1] == ds[..j + 1];
        LedgerGrows(prices, db, ds[..i], j + 1);
      }
    } else if OutcomeAt(prices, db, ds, i) == Duplicate {
      LedgerHasSource(prices, db, ds, i, ds[i].id.value);
    }
  }

  lemma RunOneMore(prices: Prices, db: Db, ds: seq<Delivery>, j: nat)
    requires j < |ds|
    ensures Run(prices, db, ds[..j + 1]) == Deliver(prices, Run(prices, db, ds[..j]), ds[j]).0
  {
    hide Deliver;
    assert ds[..j + 1][..j] == ds[..j];
  }

  /** Every ledger entry comes from an accepted delivery. */
  lemma {:induction false} LedgerHasSource(prices: Prices, db: Db, ds: seq<Delivery>, i: nat, id: string)
    requires db.ledger == map[] && i <= |ds| && id in Run(prices, db, ds[..i]).ledger
    ensures exists j :: 0 <= j < i && ds[j].id == Some(id) && Accepted(OutcomeAt(prices, db, ds, j))
  {
    hide Deliver;
    if i == 0 {
      assert false;
    } else {
      var before := Run(prices, db, ds[..i - 1]);
      RunOneMore(prices, db, ds, i - 1);
      OnlyProcessedChanges(prices, before, ds[i - 1]);
      if id in before.ledger {
        LedgerHasSource(prices, db, ds, i - 1, id);
      } else {
        assert ds[i - 1].id == Some(id) && Accepted(OutcomeAt(prices, db, ds, i - 1));
      }
    }
  }

  /** No two effective deliveries carry the same event id. */
  lemma {:induction false} EffectiveOnce(prices: Prices, db: Db, ds: seq<Delivery>)
    ensures var es := Effective(prices, db, ds);
      && (forall e :: e in es ==> e.id.Some? && e.id.value !in db.ledger && e.id.value in Run(prices, db, ds).ledger)
      && (forall a, b :: 0 <= a < b < |es| ==> es[a].id != es[b].id)
  {
    hide Deliver;
    if ds != [] {
      var i := |ds| - 1;
      EffectiveOnce(prices, db, ds[..i]);
      OnlyProcessedChanges(prices, Run(prices, db, ds[..i]), ds[i]);
      LedgerGrows(prices, db, ds[..i], 0);
    }
  }

  // ---- Rows ---------------------------------------------------------------------------------------

  /** No two rows share a Stripe subscription id or a Stripe invoice id. */
  ghost predicate UniqueIds(db: Db) {
    && (forall a, b :: 0 <= a < b < |db.subs| && db.subs[a].stripeId.Some? ==> db.subs[a].stripeId != db.subs[b].stripeId)
    && (forall a, b :: 0 <= a < b < |db.invoices| ==> db.invoices[a].stripeId != db.invoices[b].stripeId)
  }

  predicate AllProcessed(db: Db) { forall id :: id in db.ledger ==> db.ledger[id].processedAt.Some? }

  lemma DispatchKeepsUnique(prices: Prices, db: Db, kind: string, o: Object, now: int)
    requires UniqueIds(db)
    ensures UniqueIds(Dispatch(prices, db, kind, o, now))
  {
    hide Resolve, SubscriptionAllowed;
    if kind == "checkout.session.completed" { CheckoutKeepsUnique(db, o, now); }
    else if kind == "customer.subscription.created" || kind == "customer.subscription.updated" {
      UpsertKeepsUnique(prices, db, o, now);
    }
  }

  lemma CheckoutKeepsUnique(db: Db, o: Object, now: int)
    requires UniqueIds(db)
    ensures UniqueIds(OnCheckout(db, o, now))
  {
    hide Resolve;
  }

  lemma UpsertKeepsUnique(prices: Prices, db: Db, o: Object, now: int)
    requires UniqueIds(db)
    ensures UniqueIds(OnUpsert(prices, db, o, now))
  {
    hide Resolve, PlanFor;
  }

  /** The database is consistent after every delivery: ids are unique, rows meet the checks, the ledger has no half-done entry. */
  lemma {:induction false} DatabaseStaysConsistent(prices: Prices, db: Db, ds: seq<Delivery>)
    requires UniqueIds(db) && AllProcessed(db) && RowsAllowed(db.subs, db.invoices)
    ensures var db' := Run(prices, db, ds);
      UniqueIds(db') && AllProcessed(db') && RowsAllowed(db'.subs, db'.invoices)
  {
    hide Dispatch, RowsAllowed, UniqueIds;
    if ds != [] {
      var i := |ds| - 1;
      var before, d := Run(prices, db, ds[..i]), ds[i];
      DatabaseStaysConsistent(prices, db, ds[..i]);
      DispatchKeepsUnique(prices, before, d.kind, d.obj, d.now);
      UniqueIgnoresLedger(Dispatch(prices, before, d.kind, d.obj, d.now), Deliver(prices, before, d).0.ledger);
    }
  }

  lemma UniqueIgnoresLedger(db: Db, ledger: map<string, LedgerRow>)
    requires UniqueIds(db)
    ensures UniqueIds(db.(ledger := ledger))
  {
  }

  // ---- What the handlers settle -------------------------------------------------------------------

  /** All rows but possibly number i are as before, and at most one row was added. */
  predicate OnlyRowChanged<T(==)>(before: seq<T>, after: seq<T>, i: nat) {
    && i < |after| && |before| <= |after| <= |before| + 1 && (i == |before| || |after| == |before|)
    && forall n :: 0 <= n < |before| && n != i ==> after[n] == before[n]
  }

  /** After a subscription event for a known user exactly one row carries its Stripe id and it has the reported status. */
  lemma UpsertSettles(prices: Prices, db: Db, o: Object, now: int)
    requires UniqueIds(db) && o.id.Some? && Resolve(db, o).Some?
    ensures var db' := OnUpsert(prices, db, o, now);
      exists i: nat :: OnlyRowChanged(db.subs, db'.subs, i)
        && db'.subs[i].stripeId == o.id && db'.subs[i].status == o.status.GetOr("incomplete")
        && (forall n :: 0 <= n < |db'.subs| && n != i ==> db'.subs[n].stripeId != o.id)
        && (i < |db.subs| && db.subs[i].stripeId != o.id ==> db.subs[i].user == Resolve(db, o).value)
  {
    hide Resolve, PlanFor;
    var db' := OnUpsert(prices, db, o, now);
    var i := UpsertRow(db, Resolve(db, o).value, o.id);
    assert OnlyRowChanged(db.subs, db'.subs, i);
    assert forall n :: 0 <= n < |db.subs| && n != i ==> db.subs[n].stripeId != o.id;
  }

  /** A paid one-time checkout leaves the user's newest row active with no end. */
  lemma PaidCheckoutActivates(db: Db, o: Object, now: int)
    requires Resolve(db, o).Some? && o.mode == "payment"
    ensures var db' := OnCheckout(db, o, now);
      var i := LatestOf(db'.subs, Resolve(db, o).value);
      && OnlyRowChanged(db.subs, db'.subs, i)
      && db'.subs[i].status == "active" && db'.subs[i].periodEnd == None && db'.subs[i].periodStart == Some(now)
      && db'.subs[i].plan == o.planCode.GetOr("lifetime")
  {
    hide Resolve;
    var user := Resolve(db, o).value;
    var db' := OnCheckout(db, o, now);
    var i, i' := LatestOf(db.subs, user), LatestOf(db'.subs, user);
    assert db'.subs[i].user == user;
    assert i' == i;
  }

  /** After an invoice event for a known user exactly one row carries the invoice's id, with the reported status and amount. */
  lemma InvoiceRecorded(db: Db, o: Object, status: string)
    requires UniqueIds(db) && o.id.Some? && Resolve(db, o).Some?
    ensures var db' := OnInvoice(db, o, status);
      exists i: nat :: OnlyRowChanged(db.invoices, db'.invoices, i)
        && db'.invoices[i].stripeId == o.id.value && db'.invoices[i].status == status
        && db'.invoices[i].amount == Amount(o)
        && (i < |db.invoices| && db.invoices[i].paidAt.Some? ==> db'.invoices[i].paidAt.Some?)
        && (forall n :: 0 <= n < |db'.invoices| && n != i ==> db'.invoices[n].stripeId != o.id.value)
  {
    hide Resolve;
    var i := FindInvoice(db.invoices, o.id.value);
    assert OnlyRowChanged(db.invoices, OnInvoice(db, o, status).invoices, i);
  }

  // ---- Where the handlers fall short of their documentation ---------------------------------------

  /** The invoice row with the given Stripe id is paid. */
  ghost predicate Paid(db: Db, id: string) {
    exists i :: 0 <= i < |db.invoices| && db.invoices[i].stripeId == id && db.invoices[i].status == "paid"
  }

  /** A delivery reports a failed payment of this very invoice for a known user. */
  predicate ReportsFailure(db: Db, d: Delivery, id: string) {
    d.kind == "invoice.payment_failed" && d.obj.id == Some(id) && Resolve(db, d.obj).Some?
  }

  /** A delivery that reaches its handler. */
  predicate Dispatched(db: Db, d: Delivery) {
    d.signed && d.id.Some? && d.kind != "" && d.id.value !in db.ledger
  }

  /**
   * Invoices are meant to advance only, from open to paid. A paid invoice stays paid over a delivery if and only if
   * that is not a sound new report of a failed payment of this invoice for a known user.
   */
  lemma PaidStaysPaidExactlyWhen(prices: Prices, db: Db, d: Delivery, id: string)
    requires UniqueIds(db) && RowsAllowed(db.subs, db.invoices) && Paid(db, id)
    ensures Paid(Deliver(prices, db, d).0, id) <==>
            !(Dispatched(db, d) && !d.fault && 0 <= Amount(d.obj) && ReportsFailure(db, d, id))
  {
    hide Resolve, RowsAllowed, OnCheckout, OnUpsert, OnDeleted, OnInvoice, Paid, UniqueIds;
    SubscriptionsOnly(prices, db, d.obj, d.now);
    var worked := Dispatch(prices, db, d.kind, d.obj, d.now);
    if ReportsFailure(db, d, id) { InvoiceAccepted(db, d.obj, "open"); }
    if Deliver(prices, db, d).1 == Processed {
      SamePaid(worked, Deliver(prices, db, d).0, id);
      if d.kind == "invoice.paid" {
        PaidAfterInvoice(db, d.obj, "paid", id);
      } else if d.kind == "invoice.payment_failed" {
        PaidAfterInvoice(db, d.obj, "open", id);
      } else {
        SamePaid(db, worked, id);
      }
    }
  }

  /** The database refuses an invoice exactly when its amount is negative. */
  lemma InvoiceAccepted(db: Db, o: Object, status: string)
    requires RowsAllowed(db.subs, db.invoices) && Resolve(db, o).Some? && o.id.Some?
    ensures var db' := OnInvoice(db, o, status);
      RowsAllowed(db'.subs, db'.invoices) <==> 0 <= Amount(o)
  {
    hide Resolve;
    var i := FindInvoice(db.invoices, o.id.value);
    var db' := OnInvoice(db, o, status);
    assert db'.invoices[i].amount == Amount(o);
  }

  lemma SamePaid(db: Db, db': Db, id: string)
    requires db.invoices == db'.invoices
    ensures Paid(db, id) <==> Paid(db', id)
  {
  }

  lemma SubscriptionsOnly(prices: Prices, db: Db, o: Object, now: int)
    ensures OnCheckout(db, o, now).invoices == db.invoices
    ensures OnUpsert(prices, db, o, now).invoices == db.invoices
    ensures OnDeleted(db, o, now).invoices == db.invoices
  {
    hide Resolve, Upserted;
  }

  lemma PaidAfterInvoice(db: Db, o: Object, status: string, id: string)
    requires UniqueIds(db) && status in ["paid", "open"] && Paid(db, id)
    ensures Paid(OnInvoice(db, o, status), id) <==>
            !(status == "open" && o.id == Some(id) && Resolve(db, o).Some?)
  {
    hide Resolve;
    var i :| 0 <= i < |db.invoices| && db.invoices[i].stripeId == id && db.invoices[i].status == "paid";
    var db' := OnInvoice(db, o, status);
    assert "open" != "paid" by { assert "open"[0] != "paid"[0]; }
    if status == "open" && o.id == Some(id) && Resolve(db, o).Some? {
      forall n | 0 <= n < |db'.invoices| && db'.invoices[n].stripeId == id ensures db'.invoices[n].status == "open" {}
    } else {
      assert db'.invoices[i].stripeId == id && db'.invoices[i].status == "paid";
    }
  }

  predicate Plan(code: string) { code in ["trial", "pro_monthly", "pro_yearly", "lifetime"] }

  /**
   * A sound checkout fails, and so can never be processed, if and only if it belongs to a known user and either asks
   * for a subscription before the user has a row, which is given a status that the database refuses, or pays once
   * for something that is no plan.
   */
  lemma CheckoutFailsExactlyWhen(prices: Prices, db: Db, d: Delivery)
    requires Dispatched(db, d) && !d.fault && d.kind == "checkout.session.completed"
    requires RowsAllowed(db.subs, db.invoices)
    ensures Deliver(prices, db, d).1 == Failed <==>
      Resolve(db, d.obj).Some? &&
      if d.obj.mode == "payment" then !Plan(d.obj.planCode.GetOr("lifetime"))
      else LatestOf(db.subs, Resolve(db, d.obj).value) == |db.subs|
    ensures Deliver(prices, db, d).1 == Failed ==> Deliver(prices, db, d).0 == db
  {
    hide Resolve, LatestOf;
    var worked := OnCheckout(db, d.obj, d.now);
    if Resolve(db, d.obj).Some? {
      var i := LatestOf(db.subs, Resolve(db, d.obj).value);
      Statuses();
      assert forall n :: 0 <= n < |worked.subs| && n != i ==> worked.subs[n] == db.subs[n];
      assert RowsAllowed(worked.subs, worked.invoices) <==> SubscriptionAllowed(worked.subs[i]);
    }
  }

  lemma Statuses()
    ensures "incomplete" !in ["active", "past_due", "canceled", "trialing"]
  {
    assert |"incomplete"| == 10 && |"active"| == 6 && |"past_due"| == 8 && |"canceled"| == 8 && |"trialing"| == 8;
  }

  predicate Status(status: string) { status in ["active", "past_due", "canceled", "trialing"] }

  /** The prices that are configured stand for plans. */
  predicate PricesArePlans(prices: Prices) { forall p :: p in prices ==> Plan(prices[p]) }

  /** A sound subscription event fails if and only if it belongs to a known user and reports a status that the database refuses. */
  lemma UpsertFailsExactlyWhen(prices: Prices, db: Db, d: Delivery)
    requires Dispatched(db, d) && !d.fault
    requires d.kind == "customer.subscription.created" || d.kind == "customer.subscription.updated"
    requires RowsAllowed(db.subs, db.invoices) && PricesArePlans(prices)
    ensures Deliver(prices, db, d).1 == Failed <==> Resolve(db, d.obj).Some? && !Status(d.obj.status.GetOr("incomplete"))
    ensures Deliver(prices, db, d).1 == Failed ==> Deliver(prices, db, d).0 == db
  {
    hide Resolve, LatestOf, FindByStripe, OnCheckout;
    UpsertDispatched(prices, db, d);
    var worked := OnUpsert(prices, db, d.obj, d.now);
    if Resolve(db, d.obj).Some? {
      var i := UpsertRow(db, Resolve(db, d.obj).value, d.obj.id);
      assert forall n :: 0 <= n < |worked.subs| && n != i ==> worked.subs[n] == db.subs[n];
      assert RowsAllowed(worked.subs, worked.invoices) <==> SubscriptionAllowed(worked.subs[i]);
    }
  }

  lemma UpsertDispatched(prices: Prices, db: Db, d: Delivery)
    requires d.kind == "customer.subscription.created" || d.kind == "customer.subscription.updated"
    ensures Dispatch(prices, db, d.kind, d.obj, d.now) == OnUpsert(prices, db, d.obj, d.now)
  {
    assert d.kind[1] == 'u' && "checkout.session.completed"[1] == 'h';
  }

  /** The user's newest row that is active or trialing, or else the newest one: the row that is documented to be found. */
  function Preferred(subs: seq<Subscription>, user: User): (i: nat)
    ensures i <= |subs|
  {
    var i := NewestRunning(subs, user);
    if i < |subs| then i else LatestOf(subs, user)
  }

  predicate Running(s: Subscription) { s.status == "active" || s.status == "trialing" }

  function NewestRunning(subs: seq<Subscription>, user: User): (i: nat)
    ensures i <= |subs| && (i < |subs| ==> subs[i].user == user && Running(subs[i]))
    ensures i < |subs| ==> forall n :: i < n < |subs| ==> !(subs[n].user == user && Running(subs[n]))
    ensures i == |subs| ==> forall n :: 0 <= n < |subs| ==> !(subs[n].user == user && Running(subs[n]))
  {
    if subs == [] then 0 else
      var last := |subs| - 1;
      if subs[last].user == user && Running(subs[last]) then last
      else
        var i := NewestRunning(subs[..last], user);
        if i == last then |subs| else i
  }

  /** The newest row is the preferred one if and only if it is running or the user has no running row at all. */
  lemma LatestIsPreferredExactlyWhen(subs: seq<Subscription>, user: User)
    ensures LatestOf(subs, user) == Preferred(subs, user) <==>
      var i := LatestOf(subs, user);
      (i < |subs| && Running(subs[i])) || forall n :: 0 <= n < |subs| && subs[n].user == user ==> !Running(subs[n])
  {
  }

  /** A newer row that no longer runs hides an older one that does. */
  lemma NewerRowHidesRunningOne(older: Subscription, newer: Subscription)
    requires older.user == newer.user && Running(older) && !Running(newer)
    ensures LatestOf([older, newer], older.user) == 1 && Preferred([older, newer], older.user) == 0
  {
    var subs := [older, newer];
    assert subs[0] == older && subs[1] == newer;
  }

  /** A subscription event writes a row of its own user if and only if no row of another user is the first with its Stripe id. */
  lemma UpsertWritesOwnRowExactlyWhen(prices: Prices, db: Db, o: Object, now: int)
    requires Resolve(db, o).Some?
    ensures var user, found := Resolve(db, o).value, FindByStripe(db.subs, o.id);
      var i := UpsertRow(db, user, o.id);
      var db' := OnUpsert(prices, db, o, now);
      && OnlyRowChanged(db.subs, db'.subs, i) && db'.subs[i].stripeId == o.id
      && (db'.subs[i].user == user <==> found == |db.subs| || db.subs[found].user == user)
  {
    hide Resolve;
  }

  /** Without an object id that first row is the oldest one that has no Stripe id. */
  lemma UpsertWithoutIdTakesFirstFreeRow(prices: Prices, db: Db, o: Object, now: int, i: nat)
    requires o.id.None? && Resolve(db, o).Some?
    requires i < |db.subs| && db.subs[i].stripeId.None? && forall n :: 0 <= n < i ==> db.subs[n].stripeId.Some?
    ensures var db' := OnUpsert(prices, db, o, now);
      && |db'.subs| == |db.subs| && db'.subs[i].status == o.status.GetOr("incomplete")
      && db'.subs[i].user == db.subs[i].user
      && forall n :: 0 <= n < |db.subs| && n != i ==> db'.subs[n] == db.subs[n]
  {
    hide Resolve;
  }

  /** With an object id it is the row that has this id, even if the event names another user. */
  lemma UpsertFollowsIdNotUser(prices: Prices, db: Db, o: Object, now: int, i: nat)
    requires UniqueIds(db) && o.id.Some? && Resolve(db, o).Some?
    requires i < |db.subs| && db.subs[i].stripeId == o.id
    ensures var db' := OnUpsert(prices, db, o, now);
      && |db'.subs| == |db.subs| && db'.subs[i].status == o.status.GetOr("incomplete")
      && db'.subs[i].user == db.subs[i].user
      && forall n :: 0 <= n < |db.subs| && n != i ==> db'.subs[n] == db.subs[n]
  {
    hide Resolve;
    assert FindByStripe(db.subs, o.id) == i;
  }
}
