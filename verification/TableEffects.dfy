/** What each transaction does to every row, said without the functions that compute it. */
module TableEffects {
  import opened Tables
  import opened TableProofs

  // ----- delivery -----

  /** The oldest queued order of its district. */
  ghost predicate FirstIn(db: Db, k: OrderKey) {
    k in db.queue && forall j | j in db.queue && j.0 == k.0 && j.1 == k.1 :: k.2 <= j.2
  }

  /** The orders that a delivery takes from the districts `from` to `to` of warehouse `w`. */
  ghost predicate Taken(db: Db, w: int, from: int, to: int, k: OrderKey) {
    k.0 == w && from <= k.1 <= to && FirstIn(db, k)
  }

  /** Order `k` is taken, has lines and belongs to customer `c`. */
  ghost predicate Gets(db: Db, w: int, from: int, to: int, c: CustomerKey, o: int) {
    var k := (c.0, c.1, o);
    Taken(db, w, from, to, k) && k in db.orders && db.orders[k].customer == c.2 && db.orders[k].count > 0
  }

  ghost predicate CustomerServed(db: Db, after: Db, w: int, from: int, to: int, c: CustomerKey)
    requires c in db.customers && c in after.customers
  {
    var was, now := db.customers[c], after.customers[c];
    && (forall o | Gets(db, w, from, to, c, o) ::
          now == was.(balance := was.balance + AllLines(db.lines, c.0, c.1, o, db.orders[(c.0, c.1, o)].count),
                      deliveryCnt := was.deliveryCnt + 1))
    && ((forall o :: !Gets(db, w, from, to, c, o)) ==> now == was)
  }

  /** Exactly the oldest order of each of these districts leaves the queue. It gets the carrier, its lines get the
      date, and its customer gets the sum of its lines and counts a delivery. All other rows are as they were. */
  ghost predicate DeliveryEffect(db: Db, after: Db, w: int, carrier: int, date: int, from: int, to: int) {
    && (forall k :: k in after.queue <==> k in db.queue && !Taken(db, w, from, to, k))
    && after.orders.Keys == db.orders.Keys
    && (forall k | k in db.orders :: after.orders[k] ==
          if Taken(db, w, from, to, k) then db.orders[k].(carrier := carrier) else db.orders[k])
    && after.lines.Keys == db.lines.Keys
    && (forall k | k in db.lines :: after.lines[k] ==
          if Taken(db, w, from, to, (k.0, k.1, k.2)) then db.lines[k].(delivered := date) else db.lines[k])
    && after.customers.Keys == db.customers.Keys
    && (forall c | c in db.customers :: CustomerServed(db, after, w, from, to, c))
    && after.warehouses == db.warehouses && after.districts == db.districts && after.names == db.names
    && after.history == db.history && after.prices == db.prices
  }

  lemma FirstIsLeast(db: Db, w: int, d: int)
    requires Queued(db, w, d) != {}
    ensures forall o :: FirstIn(db, (w, d, o)) <==> o == Least(Queued(db, w, d))
  {
    var m := Least(Queued(db, w, d));
    assert (w, d, m) in db.queue;
    forall o ensures FirstIn(db, (w, d, o)) <==> o == m {
      if FirstIn(db, (w, d, o)) { assert o in Queued(db, w, d); }
      forall j | j in db.queue && j.0 == w && j.1 == d ensures m <= j.2 { assert j.2 in Queued(db, w, d); }
    }
  }

  /** One district. */
  lemma DeliverOneEffect(db: Db, w: int, d: int, carrier: int, date: int)
    requires Consistent(db) && (w, d) in db.districts
    ensures DeliveryEffect(db, DeliverOne(db, w, d, carrier, date), w, carrier, date, d, d)
  {
    hide Balanced, Least, AllLines, Keyed, DeliveryEffect;
    if Queued(db, w, d) == {} {
      NothingTaken(db, w, d, carrier, date);
    } else {
      FirstIsLeast(db, w, d);
      assert DistrictOk(db, w, d);
      var o := Least(Queued(db, w, d));
      assert (w, d, o) in db.queue by { assert o in Queued(db, w, d); }
      SendEffect(db, w, d, o, carrier, date);
    }
  }

  lemma NothingTaken(db: Db, w: int, d: int, carrier: int, date: int)
    requires Queued(db, w, d) == {}
    ensures DeliveryEffect(db, db, w, carrier, date, d, d)
  {
    hide AllLines;
    forall k: OrderKey | k in db.queue && k.0 == w && k.1 == d ensures k.2 in Queued(db, w, d) {}
    assert forall k: OrderKey :: !Taken(db, w, d, d, k);
  }

  lemma OnlyTaken(db: Db, w: int, d: int, o: int, k: OrderKey)
    requires forall i :: FirstIn(db, (w, d, i)) <==> i == o
    ensures Taken(db, w, d, d, k) <==> k == (w, d, o)
  {
    hide FirstIn;
    if k.0 == w && k.1 == d {
      assert k == (w, d, k.2);
      assert FirstIn(db, (w, d, k.2)) <==> k.2 == o;
    }
  }

  lemma SendEffect(db: Db, w: int, d: int, o: int, carrier: int, date: int)
    requires (w, d) in db.districts && DistrictOk(db, w, d)
    requires (w, d, o) in db.queue && forall i :: FirstIn(db, (w, d, i)) <==> i == o
    ensures DeliveryEffect(db, Send(db, w, d, o, carrier, date), w, carrier, date, d, d)
  {
    var after := Send(db, w, d, o, carrier, date);
    forall k: OrderKey ensures Taken(db, w, d, d, k) <==> k == (w, d, o) { OnlyTaken(db, w, d, o, k); }
    SendRows(db, w, d, o, carrier, date);
    hide AllLines, Taken, DateLines, Send, DistrictOk;
    forall c | c in db.customers ensures CustomerServed(db, after, w, d, d, c) {
      SendServes(db, after, w, d, o, c);
    }
  }

  lemma SendServes(db: Db, after: Db, w: int, d: int, o: int, c: CustomerKey)
    requires forall k: OrderKey :: Taken(db, w, d, d, k) <==> k == (w, d, o)
    requires (w, d, o) in db.orders && after.customers.Keys == db.customers.Keys && c in db.customers
    requires var order := db.orders[(w, d, o)];
      after.customers[c] ==
        if c == (w, d, order.customer) && order.count > 0
        then db.customers[c].(balance := db.customers[c].balance + AllLines(db.lines, w, d, o, order.count),
                              deliveryCnt := db.customers[c].deliveryCnt + 1)
        else db.customers[c]
    ensures CustomerServed(db, after, w, d, d, c)
  {
    hide AllLines, Taken;
    assert forall i | Gets(db, w, d, d, c, i) :: i == o && c == (w, d, db.orders[(w, d, o)].customer);
    if c == (w, d, db.orders[(w, d, o)].customer) && db.orders[(w, d, o)].count > 0 { assert Gets(db, w, d, d, c, o); }
  }

  /** The same for one order of one district. */
  lemma SendRows(db: Db, w: int, d: int, o: int, carrier: int, date: int)
    requires (w, d) in db.districts && DistrictOk(db, w, d) && (w, d, o) in db.queue
    ensures (w, d, o) in db.orders
    ensures var after, k, order := Send(db, w, d, o, carrier, date), (w, d, o), db.orders[(w, d, o)];
      && after.queue == db.queue - {k} && after.orders == db.orders[k := order.(carrier := carrier)]
      && after.lines.Keys == db.lines.Keys
      && (forall i | i in db.lines :: after.lines[i] ==
            if (i.0, i.1, i.2) == k then db.lines[i].(delivered := date) else db.lines[i])
      && after.customers.Keys == db.customers.Keys
      && (forall c | c in db.customers :: after.customers[c] ==
            if c == (w, d, order.customer) && order.count > 0
            then db.customers[c].(balance := db.customers[c].balance + AllLines(db.lines, w, d, o, order.count),
                                  deliveryCnt := db.customers[c].deliveryCnt + 1)
            else db.customers[c])
      && after.warehouses == db.warehouses && after.districts == db.districts && after.names == db.names
      && after.history == db.history && after.prices == db.prices
  {
    hide AllLines;
    DateLinesAt(db.lines, w, d, o, date, db.orders[(w, d, o)].count);
    hide DateLines;
  }

  lemma {:induction false} AllLinesSame(a: map<LineKey, Line>, b: map<LineKey, Line>, w: int, d: int, o: int, n: nat)
    requires a.Keys == b.Keys
    requires forall i: int | (w, d, o, i) in a :: a[(w, d, o, i)] == b[(w, d, o, i)]
    ensures AllLines(a, w, d, o, n) == AllLines(b, w, d, o, n)
  {
    if n > 0 { AllLinesSame(a, b, w, d, o, n - 1); }
  }

  /** The districts before `d` and district `d` itself do not touch each other. */
  lemma EffectsJoin(a: Db, b: Db, c: Db, w: int, carrier: int, date: int, d: int)
    requires DeliveryEffect(a, b, w, carrier, date, 1, d - 1) && DeliveryEffect(b, c, w, carrier, date, d, d) && d >= 1
    ensures DeliveryEffect(a, c, w, carrier, date, 1, d)
  {
    forall k: OrderKey
      ensures Taken(a, w, 1, d, k) <==> Taken(a, w, 1, d - 1, k) || Taken(b, w, d, d, k)
      ensures !(Taken(a, w, 1, d - 1, k) && Taken(b, w, d, d, k))
    {
      TakenJoin(a, b, w, carrier, date, d, k);
    }
    forall k | k in a.customers ensures k in c.customers && CustomerServed(a, c, w, 1, d, k) {
      ServedJoin(a, b, c, w, carrier, date, d, k);
    }
    hide CustomerServed, Taken;
  }

  lemma TakenJoin(a: Db, b: Db, w: int, carrier: int, date: int, d: int, k: OrderKey)
    requires DeliveryEffect(a, b, w, carrier, date, 1, d - 1) && d >= 1
    ensures Taken(a, w, 1, d, k) <==> Taken(a, w, 1, d - 1, k) || Taken(b, w, d, d, k)
    ensures !(Taken(a, w, 1, d - 1, k) && Taken(b, w, d, d, k))
  {
    hide FirstIn, DeliveryEffect;
    if k.1 == d { FirstStays(a, b, w, carrier, date, d, k); }
  }

  lemma FirstStays(a: Db, b: Db, w: int, carrier: int, date: int, d: int, k: OrderKey)
    requires DeliveryEffect(a, b, w, carrier, date, 1, d - 1) && k.1 == d
    ensures FirstIn(a, k) <==> FirstIn(b, k)
  {
    hide CustomerServed;
    assert forall j: OrderKey | j.1 == d :: j in a.queue <==> j in b.queue;
  }

  lemma ServedJoin(a: Db, b: Db, c: Db, w: int, carrier: int, date: int, d: int, k: CustomerKey)
    requires DeliveryEffect(a, b, w, carrier, date, 1, d - 1) && DeliveryEffect(b, c, w, carrier, date, d, d) && d >= 1
    requires k in a.customers
    ensures k in c.customers && CustomerServed(a, c, w, 1, d, k)
  {
    forall o
      ensures Gets(a, w, 1, d, k, o) <==> Gets(a, w, 1, d - 1, k, o) || Gets(b, w, d, d, k, o)
      ensures Gets(b, w, d, d, k, o) ==> SameBill(a, b, k, o) && !Gets(a, w, 1, d - 1, k, o)
      ensures k.1 == d ==> !Gets(a, w, 1, d - 1, k, o)
      ensures k.1 != d ==> !Gets(b, w, d, d, k, o)
    {
      GetsJoin(a, b, w, carrier, date, d, k, o);
    }
    assert CustomerServed(a, b, w, 1, d - 1, k) && CustomerServed(b, c, w, d, d, k);
    hide Gets, DeliveryEffect, AllLines;
  }

  ghost predicate SameBill(a: Db, b: Db, c: CustomerKey, o: int) {
    var k := (c.0, c.1, o);
    && k in a.orders && k in b.orders && a.orders[k].count == b.orders[k].count
    && AllLines(a.lines, c.0, c.1, o, a.orders[k].count) == AllLines(b.lines, c.0, c.1, o, b.orders[k].count)
  }

  lemma GetsJoin(a: Db, b: Db, w: int, carrier: int, date: int, d: int, k: CustomerKey, o: int)
    requires DeliveryEffect(a, b, w, carrier, date, 1, d - 1) && d >= 1
    ensures Gets(a, w, 1, d, k, o) <==> Gets(a, w, 1, d - 1, k, o) || Gets(b, w, d, d, k, o)
    ensures Gets(b, w, d, d, k, o) ==> SameBill(a, b, k, o) && !Gets(a, w, 1, d - 1, k, o)
    ensures k.1 == d ==> !Gets(a, w, 1, d - 1, k, o)
    ensures k.1 != d ==> !Gets(b, w, d, d, k, o)
  {
    var i := (k.0, k.1, o);
    TakenJoin(a, b, w, carrier, date, d, i);
    hide FirstIn, CustomerServed, AllLines;
    assert i in a.orders <==> i in b.orders;
    if i in a.orders && k.1 == d { AllLinesSame(a.lines, b.lines, k.0, k.1, o, a.orders[i].count); }
  }

  lemma {:induction false} DeliverUpTo(db: Db, w: int, carrier: int, date: int, d: nat)
    requires Consistent(db) && w in db.warehouses && date != 0 && d <= DISTRICTS
    ensures DeliveryEffect(db, Deliver(db, w, carrier, date, d), w, carrier, date, 1, d)
  {
    hide Consistent, DeliverOne;
    if d > 0 {
      DeliverUpTo(db, w, carrier, date, d - 1);
      DeliverKeeps(db, w, carrier, date, d - 1);
      var before := Deliver(db, w, carrier, date, d - 1);
      assert (w, d) in before.districts by { HasDistrict(before, w, d); }
      DeliverOneEffect(before, w, d, carrier, date);
      EffectsJoin(db, before, DeliverOne(before, w, d, carrier, date), w, carrier, date, d);
    }
  }

  lemma HasDistrict(db: Db, w: int, d: int)
    requires Consistent(db) && w in db.warehouses && 1 <= d <= DISTRICTS
    ensures (w, d) in db.districts
  {
    hide DistrictOk, Balanced;
  }

  /** A delivery serves the oldest order of all ten districts of its warehouse. */
  lemma DeliverEffect(db: Db, w: int, carrier: int, date: int)
    requires Consistent(db) && w in db.warehouses && date != 0
    ensures DeliveryEffect(db, Deliver(db, w, carrier, date, DISTRICTS), w, carrier, date, 1, 10)
  {
    hide Consistent, DeliveryEffect, Deliver;
    DeliverUpTo(db, w, carrier, date, DISTRICTS);
  }

  // ----- new order -----

  /** The district's next number is used up by an order of the customer, queued and without a carrier, whose lines are
      the requested items at their price with both taxes and the customer's discount, not delivered yet. All other
      rows are as they were. */
  lemma NewOrderEffect(db: Db, w: int, d: int, c: int, requests: seq<Request>)
    requires CanOrder(db, w, d, c, requests) && Consistent(db)
    ensures var after, o := NewOrder(db, w, d, c, requests), db.districts[(w, d)].nextOrder;
      && (w, d, o) !in db.orders && (w, d, o) !in db.queue
      && after.districts == db.districts[(w, d) := db.districts[(w, d)].(nextOrder := o + 1)]
      && after.orders == db.orders[(w, d, o) := Order(c, 0, |requests|)]
      && after.queue == db.queue + {(w, d, o)}
      && (forall k :: k in after.lines <==> k in db.lines || (k.0 == w && k.1 == d && k.2 == o && 1 <= k.3 <= |requests|))
      && (forall k | k in db.lines :: after.lines[k] == db.lines[k])
      && (forall i | 0 <= i < |requests| :: OrderedLine(db, w, d, c, requests[i], after.lines[(w, d, o, i + 1)]))
      && after.warehouses == db.warehouses && after.customers == db.customers && after.names == db.names
      && after.history == db.history && after.prices == db.prices
  {
    var o := db.districts[(w, d)].nextOrder;
    assert DistrictOk(db, w, d);
    NewLinesAt(db, w, d, c, o, requests, |requests|);
    hide NewLines, OrderedLine, Balanced, Amount;
    forall i | 0 <= i < |requests|
      ensures OrderedLine(db, w, d, c, requests[i], NewOrder(db, w, d, c, requests).lines[(w, d, o, i + 1)])
    {
      NewLineAt(db, w, d, c, o, requests, |requests|, i + 1);
    }
  }

  predicate OrderedLine(db: Db, w: int, d: int, c: int, r: Request, line: Line)
    requires w in db.warehouses && (w, d) in db.districts && (w, d, c) in db.customers && r.item in db.prices
  {
    && line.item == r.item && line.quantity == r.quantity && line.delivered == 0
    && line.amount == r.quantity as real * db.prices[r.item] * (1.0 + db.warehouses[w].tax + db.districts[(w, d)].tax)
         * (1.0 - db.customers[(w, d, c)].discount)
  }

  lemma {:induction false} NewLineAt(db: Db, w: int, d: int, c: int, o: int, requests: seq<Request>, n: nat, i: nat)
    requires CanOrder(db, w, d, c, requests) && 1 <= i <= n <= |requests|
    ensures (w, d, o, i) in NewLines(db, w, d, c, o, requests, n)
    ensures OrderedLine(db, w, d, c, requests[i - 1], NewLines(db, w, d, c, o, requests, n)[(w, d, o, i)])
  {
    if i < n {
      NewLineAt(db, w, d, c, o, requests, n - 1, i);
    } else {
      var r := requests[i - 1];
      Priced(r.quantity, db.prices[r.item], db.warehouses[w].tax, db.districts[(w, d)].tax, db.customers[(w, d, c)].discount);
    }
  }

  lemma Priced(quantity: int, price: real, warehouseTax: real, districtTax: real, discount: real)
    ensures LineAmount(quantity, price, warehouseTax, districtTax, discount)
      == quantity as real * price * (1.0 + warehouseTax + districtTax) * (1.0 - discount)
  {
    var q := quantity as real;
    assert price * q + price * q * (warehouseTax + districtTax) == q * price * (1.0 + warehouseTax + districtTax);
  }

  // ----- payment -----

  /** The warehouse and the district take the amount; the customer owes it less, has paid it this year and counts a
      payment; the payment is the newest of the history. All other rows are as they were. */
  ghost predicate PaymentEffect(db: Db, after: Db, w: int, d: int, c: CustomerKey, amount: real)
    requires CanPay(db, w, d, c)
  {
    MoneyTaken(db, after, w, d, amount)
    && var was := db.customers[c];
       && after.customers == db.customers[c := Customer(was.discount, was.balance - amount, was.ytdPayment + amount,
                                                        was.paymentCnt + 1, was.deliveryCnt)]
       && |after.history| == |db.history| + 1 && after.history[..|db.history|] == db.history
       && after.history[|db.history|] == Payment(c, (w, d), amount)
  }

  ghost predicate MoneyTaken(db: Db, after: Db, w: int, d: int, amount: real)
    requires w in db.warehouses && (w, d) in db.districts
  {
    var warehouse, district := db.warehouses[w], db.districts[(w, d)];
    && after.warehouses == db.warehouses[w := Warehouse(warehouse.tax, warehouse.ytd + amount)]
    && after.districts == db.districts[(w, d) := District(district.tax, district.ytd + amount, district.nextOrder)]
    && after.names == db.names && after.orders == db.orders && after.queue == db.queue && after.lines == db.lines
    && after.prices == db.prices
  }

  lemma PayEffect(db: Db, w: int, d: int, c: CustomerKey, amount: real)
    requires CanPay(db, w, d, c)
    ensures PaymentEffect(db, Pay(db, w, d, c, amount), w, d, c, amount)
  {
  }

  /** Of the customers with the name, the one that pays has as many before as behind, or one fewer. Without such a
      customer the warehouse and the district take the amount, and nobody pays it. */
  lemma PayByNameEffect(db: Db, w: int, d: int, cw: int, cd: int, last: string, amount: real)
    requires CanPayByName(db, w, d, cw, cd, last)
    ensures var after, ids := PayByName(db, w, d, cw, cd, last, amount), Named(db, cw, cd, last);
      if |ids| == 0 then MoneyTaken(db, after, w, d, amount) && after.customers == db.customers && after.history == db.history
      else exists i: nat {:trigger ids[i]} :: i < |ids| && i <= |ids| - 1 - i <= i + 1
             && CanPay(db, w, d, (cw, cd, ids[i])) && PaymentEffect(db, after, w, d, (cw, cd, ids[i]), amount)
  {
    var ids := Named(db, cw, cd, last);
    if |ids| > 0 {
      var i: nat := (|ids| - 1) / 2;
      assert i <= |ids| - 1 - i <= i + 1;
      PayEffect(db, w, d, (cw, cd, ids[i]), amount);
    }
  }
}
