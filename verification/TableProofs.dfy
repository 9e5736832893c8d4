/** Every TPC-C transaction keeps the consistency conditions, so any run from the loaded tables keeps them. */
module TableProofs {
  import opened Tables

  // ----- frames -----

  lemma {:induction false} DeliveredLinesSame(a: map<LineKey, Line>, b: map<LineKey, Line>, w: int, d: int, o: int,
                                              n: nat)
    requires forall i: int | 1 <= i <= n :: (w, d, o, i) in a <==> (w, d, o, i) in b
    requires forall i: int | 1 <= i <= n && (w, d, o, i) in a :: a[(w, d, o, i)] == b[(w, d, o, i)]
    ensures DeliveredLines(a, w, d, o, n) == DeliveredLines(b, w, d, o, n)
  {
    if n > 0 { DeliveredLinesSame(a, b, w, d, o, n - 1); }
  }

  predicate SameHead(a: Db, b: Db, k: OrderKey) {
    if k in a.orders && k in b.orders then
      a.orders[k].customer == b.orders[k].customer && a.orders[k].count == b.orders[k].count
    else k !in a.orders && k !in b.orders
  }

  /** Orders that are the same, with the same lines, have delivered the same. */
  ghost predicate SameOrder(a: Db, b: Db, w: int, d: int, o: int) {
    && SameHead(a, b, (w, d, o))
    && (forall n :: (w, d, o, n) in a.lines <==> (w, d, o, n) in b.lines)
    && (forall n | (w, d, o, n) in a.lines && (w, d, o, n) in b.lines :: a.lines[(w, d, o, n)] == b.lines[(w, d, o, n)])
  }

  lemma SameOrderDelivered(a: Db, b: Db, w: int, d: int, c: int, o: int)
    requires SameOrder(a, b, w, d, o)
    ensures DeliveredOrder(a, w, d, c, o) == DeliveredOrder(b, w, d, c, o)
  {
    if (w, d, o) in a.orders { DeliveredLinesSame(a.lines, b.lines, w, d, o, a.orders[(w, d, o)].count); }
  }

  lemma {:induction false} DeliveredSame(a: Db, b: Db, w: int, d: int, c: int, k: int)
    requires forall o | 1 <= o <= k :: SameOrder(a, b, w, d, o)
    ensures Delivered(a, w, d, c, k) == Delivered(b, w, d, c, k)
    decreases k
  {
    if k > 0 {
      DeliveredSame(a, b, w, d, c, k - 1);
      SameOrderDelivered(a, b, w, d, c, k);
    }
  }

  /** One order's delivered amount changes by `x`. */
  lemma {:induction false} DeliveredChange(a: Db, b: Db, w: int, d: int, c: int, o: int, k: int)
    requires 1 <= o <= k && forall i | 1 <= i <= k && i != o :: SameOrder(a, b, w, d, i)
    ensures Delivered(b, w, d, c, k) == Delivered(a, w, d, c, k) - DeliveredOrder(a, w, d, c, o) + DeliveredOrder(b, w,
        d, c, o)
    decreases k
  {
    if k == o {
      DeliveredSame(a, b, w, d, c, k - 1);
    } else {
      DeliveredChange(a, b, w, d, c, o, k - 1);
      SameOrderDelivered(a, b, w, d, c, k);
    }
  }

  lemma {:induction false} DistrictYtdSame(a: Db, b: Db, w: int, n: nat)
    requires forall d: int | 1 <= d <= n :: (w, d) in a.districts <==> (w, d) in b.districts
    requires forall d: int | 1 <= d <= n && (w, d) in a.districts :: a.districts[(w, d)].ytd == b.districts[(w, d)].ytd
    ensures DistrictYtd(a, w, n) == DistrictYtd(b, w, n)
  {
    if n > 0 { DistrictYtdSame(a, b, w, n - 1); }
  }

  lemma {:induction false} DistrictYtdChange(a: Db, b: Db, w: int, d: int, x: real, n: nat)
    requires 1 <= d <= n && (w, d) in a.districts && (w, d) in b.districts
    requires b.districts[(w, d)].ytd == a.districts[(w, d)].ytd + x
    requires forall e: int | 1 <= e <= n && e != d :: (w, e) in a.districts <==> (w, e) in b.districts
    requires forall e: int | 1 <= e <= n && e != d && (w, e) in a.districts ::
        a.districts[(w, e)].ytd == b.districts[(w, e)].ytd
    ensures DistrictYtd(b, w, n) == DistrictYtd(a, w, n) + x
  {
    if n == d { DistrictYtdSame(a, b, w, n - 1); } else { DistrictYtdChange(a, b, w, d, x, n - 1); }
  }

  // ----- lines -----

  lemma {:induction false} NewLinesAt(db: Db, w: int, d: int, c: int, o: int, requests: seq<Request>, n: nat)
    requires CanOrder(db, w, d, c, requests) && n <= |requests|
    ensures var after := NewLines(db, w, d, c, o, requests, n);
      && (forall k :: k in after <==> k in db.lines || (k.0 == w && k.1 == d && k.2 == o && 1 <= k.3 <= n))
      && (forall k | k in after && !(k.0 == w && k.1 == d && k.2 == o && 1 <= k.3 <= n) :: after[k] == db.lines[k])
      && (forall i: int | 1 <= i <= n :: (w, d, o, i) in after && after[(w, d, o, i)].delivered == 0
            && after[(w, d, o, i)].amount == Amount(db, w, d, c, requests[i - 1]))
  {
    hide Amount;
    if n > 0 { NewLinesAt(db, w, d, c, o, requests, n - 1); }
  }

  lemma {:induction false} DateLinesAt(lines: map<LineKey, Line>, w: int, d: int, o: int, date: int, n: nat)
    ensures var after := DateLines(lines, w, d, o, date, n);
      && after.Keys == lines.Keys
      && (forall k | k in lines :: after[k] ==
            if k.0 == w && k.1 == d && k.2 == o && 1 <= k.3 <= n then lines[k].(delivered := date) else lines[k])
  {
    if n > 0 { DateLinesAt(lines, w, d, o, date, n - 1); }
  }

  lemma LastPaid(history: seq<Payment>, p: Payment, c: CustomerKey)
    ensures Paid(history + [p], c) == Paid(history, c) + if p.customer == c then p.amount else 0.0
  {
    assert (history + [p])[..|history|] == history;
  }

  lemma {:induction false} UndeliveredLines(lines: map<LineKey, Line>, w: int, d: int, o: int, n: nat)
    requires forall i: int | 1 <= i <= n && (w, d, o, i) in lines :: lines[(w, d, o, i)].delivered == 0 || lines[(w, d, o, i)].amount == 0.0
    ensures DeliveredLines(lines, w, d, o, n) == 0.0
  {
    if n > 0 { UndeliveredLines(lines, w, d, o, n - 1); }
  }

  lemma {:induction false} DatedLines(lines: map<LineKey, Line>, w: int, d: int, o: int, date: int, m: nat, n: nat)
    requires date != 0 && n <= m
    ensures DeliveredLines(DateLines(lines, w, d, o, date, m), w, d, o, n) == AllLines(lines, w, d, o, n)
  {
    DateLinesAt(lines, w, d, o, date, m);
    if n > 0 { DatedLines(lines, w, d, o, date, m, n - 1); }
  }

  // ----- one district -----

  /** What the conditions of a district look at: order numbers, orders, the queue, lines and who is a customer. */
  ghost predicate SameDistrict(a: Db, b: Db, w: int, d: int) {
    && (w, d) in a.districts && (w, d) in b.districts && a.districts[(w, d)].nextOrder == b.districts[(w, d)].nextOrder
    && a.customers.Keys == b.customers.Keys
    && (forall o :: SameOrder(a, b, w, d, o) && ((w, d, o) in a.queue <==> (w, d, o) in b.queue))
  }

  lemma SameDistrictOk(a: Db, b: Db, w: int, d: int)
    requires SameDistrict(a, b, w, d) && DistrictOk(a, w, d)
    ensures DistrictOk(b, w, d)
  {
    var first :| QueueFrom(a, w, d, first);
    assert QueueFrom(b, w, d, first);
    assert forall o :: SameHead(a, b, (w, d, o)) by {
      forall o ensures SameHead(a, b, (w, d, o)) { assert SameOrder(a, b, w, d, o); }
    }
    assert OrderLines(b, w, d) by {
      forall o, n ensures (w, d, o, n) in b.lines <==> (w, d, o) in b.orders && 1 <= n <= b.orders[(w, d, o)].count {
        assert SameOrder(a, b, w, d, o);
      }
    }
    assert QueuedLines(b, w, d) by {
      forall o, n | (w, d, o) in b.queue && (w, d, o, n) in b.lines && b.lines[(w, d, o, n)].delivered != 0
        ensures b.lines[(w, d, o, n)].amount == 0.0 { assert SameOrder(a, b, w, d, o); }
    }
  }

  /** A customer of an untouched district, whose own row and payments are untouched, stays balanced. */
  lemma SameBalanced(a: Db, b: Db, c: CustomerKey)
    requires c in a.customers && c in b.customers && SameDistrict(a, b, c.0, c.1)
    requires a.customers[c].balance == b.customers[c].balance && Paid(a.history, c) == Paid(b.history, c)
    requires Balanced(a, c)
    ensures Balanced(b, c)
  {
    DeliveredSame(a, b, c.0, c.1, c.2, a.districts[(c.0, c.1)].nextOrder - 1);
  }

  // ----- new order -----

  lemma NewOrderDistrict(db: Db, w: int, d: int, c: int, requests: seq<Request>)
    requires CanOrder(db, w, d, c, requests) && DistrictOk(db, w, d)
    ensures DistrictOk(NewOrder(db, w, d, c, requests), w, d)
  {
    hide Amount;
    var after := NewOrder(db, w, d, c, requests);
    var o := db.districts[(w, d)].nextOrder;
    NewLinesAt(db, w, d, c, o, requests, |requests|);
    var first :| QueueFrom(db, w, d, first);
    assert QueueFrom(after, w, d, first);
  }

  lemma NewOrderOther(db: Db, w: int, d: int, c: int, requests: seq<Request>, e: DistrictKey)
    requires CanOrder(db, w, d, c, requests) && e in db.districts && e != (w, d)
    ensures SameDistrict(db, NewOrder(db, w, d, c, requests), e.0, e.1)
  {
    hide Amount;
    NewLinesAt(db, w, d, c, db.districts[(w, d)].nextOrder, requests, |requests|);
  }

  lemma NewOrderBalanced(db: Db, w: int, d: int, c: int, requests: seq<Request>, k: CustomerKey)
    requires CanOrder(db, w, d, c, requests) && k in db.customers && k.0 == w && k.1 == d && Balanced(db, k)
    requires db.districts[(w, d)].nextOrder >= 1
    ensures Balanced(NewOrder(db, w, d, c, requests), k)
  {
    hide Amount;
    var after := NewOrder(db, w, d, c, requests);
    var o := db.districts[(w, d)].nextOrder;
    NewLinesAt(db, w, d, c, o, requests, |requests|);
    DeliveredSame(db, after, w, d, k.2, o - 1);
    UndeliveredLines(after.lines, w, d, o, |requests|);
  }

  lemma NewOrderKeeps(db: Db, w: int, d: int, c: int, requests: seq<Request>)
    requires CanOrder(db, w, d, c, requests) && Consistent(db)
    ensures Consistent(NewOrder(db, w, d, c, requests)) && SameGaps(db, NewOrder(db, w, d, c, requests))
  {
    hide Amount, DistrictOk, Balanced, NewLines;
    var after := NewOrder(db, w, d, c, requests);
    assert DistrictOk(db, w, d);
    NextPositive(db, w, d);
    forall e | e in after.districts ensures DistrictOk(after, e.0, e.1) {
      if e == (w, d) { NewOrderDistrict(db, w, d, c, requests); }
      else {
        NewOrderOther(db, w, d, c, requests, e);
        assert DistrictOk(db, e.0, e.1);
        SameDistrictOk(db, after, e.0, e.1);
      }
    }
    forall k | k in after.customers ensures Balanced(after, k) {
      if (k.0, k.1) == (w, d) { NewOrderBalanced(db, w, d, c, requests, k); }
      else { NewOrderOther(db, w, d, c, requests, (k.0, k.1)); SameBalanced(db, after, k); }
    }
    forall v | v in db.warehouses ensures YtdGap(after, v) == YtdGap(db, v) {
      DistrictYtdSame(db, after, v, DISTRICTS);
    }
  }

  lemma NextPositive(db: Db, w: int, d: int)
    requires (w, d) in db.districts && DistrictOk(db, w, d)
    ensures db.districts[(w, d)].nextOrder >= 1
  {
  }

  // ----- payment -----

  lemma CollectKeeps(db: Db, w: int, d: int, amount: real)
    requires w in db.warehouses && (w, d) in db.districts && Consistent(db)
    ensures Consistent(Collect(db, w, d, amount)) && SameGaps(db, Collect(db, w, d, amount))
  {
    hide DistrictOk, Balanced;
    var after := Collect(db, w, d, amount);
    forall e | e in after.districts ensures SameDistrict(db, after, e.0, e.1) && DistrictOk(after, e.0, e.1) {
      assert DistrictOk(db, e.0, e.1);
      SameDistrictOk(db, after, e.0, e.1);
    }
    forall k | k in after.customers ensures Balanced(after, k) {
      assert (k.0, k.1) in after.districts;
      SameBalanced(db, after, k);
    }
    forall v | v in db.warehouses ensures YtdGap(after, v) == YtdGap(db, v) {
      if v == w { DistrictYtdChange(db, after, w, d, amount, DISTRICTS); } else { DistrictYtdSame(db, after, v,
          DISTRICTS); }
    }
  }

  lemma CreditKeeps(db: Db, w: int, d: int, c: CustomerKey, amount: real)
    requires c in db.customers && Consistent(db)
    ensures Consistent(Credit(db, w, d, c, amount)) && SameGaps(db, Credit(db, w, d, c, amount))
  {
    hide DistrictOk, Balanced, SameGaps;
    var after := Credit(db, w, d, c, amount);
    forall e | e in after.districts ensures SameDistrict(db, after, e.0, e.1) && DistrictOk(after, e.0, e.1) {
      assert DistrictOk(db, e.0, e.1);
      SameDistrictOk(db, after, e.0, e.1);
    }
    forall k | k in after.customers ensures Balanced(after, k) {
      assert (k.0, k.1) in db.districts && Balanced(db, k);
      if k == c { CreditBalanced(db, w, d, c, amount); } else { CreditOther(db, w, d, c, amount, k); }
    }
    CreditGaps(db, w, d, c, amount);
  }

  lemma CreditGaps(db: Db, w: int, d: int, c: CustomerKey, amount: real)
    requires c in db.customers
    ensures SameGaps(db, Credit(db, w, d, c, amount))
  {
    var after := Credit(db, w, d, c, amount);
    forall k | k in db.customers ensures PaidGap(after, k) == PaidGap(db, k) {
      LastPaid(db.history, Payment(c, (w, d), amount), k);
    }
    forall v | v in db.warehouses ensures YtdGap(after, v) == YtdGap(db, v) {
      DistrictYtdSame(db, after, v, DISTRICTS);
    }
  }

  lemma CreditOther(db: Db, w: int, d: int, c: CustomerKey, amount: real, k: CustomerKey)
    requires c in db.customers && k in db.customers && k != c && (k.0, k.1) in db.districts && Balanced(db, k)
    ensures Balanced(Credit(db, w, d, c, amount), k)
  {
    hide Balanced;
    LastPaid(db.history, Payment(c, (w, d), amount), k);
    SameBalanced(db, Credit(db, w, d, c, amount), k);
  }

  lemma CreditBalanced(db: Db, w: int, d: int, c: CustomerKey, amount: real)
    requires c in db.customers && (c.0, c.1) in db.districts && Balanced(db, c)
    ensures Balanced(Credit(db, w, d, c, amount), c)
  {
    var after := Credit(db, w, d, c, amount);
    LastPaid(db.history, Payment(c, (w, d), amount), c);
    DeliveredSame(db, after, c.0, c.1, c.2, db.districts[(c.0, c.1)].nextOrder - 1);
  }

  lemma PayKeeps(db: Db, w: int, d: int, c: CustomerKey, amount: real)
    requires CanPay(db, w, d, c) && Consistent(db)
    ensures Consistent(Pay(db, w, d, c, amount)) && SameGaps(db, Pay(db, w, d, c, amount))
  {
    hide Consistent, YtdGap, PaidGap;
    CollectKeeps(db, w, d, amount);
    CreditKeeps(Collect(db, w, d, amount), w, d, c, amount);
  }

  lemma PayByNameKeeps(db: Db, w: int, d: int, cw: int, cd: int, last: string, amount: real)
    requires CanPayByName(db, w, d, cw, cd, last) && Consistent(db)
    ensures var after := PayByName(db, w, d, cw, cd, last, amount); Consistent(after) && SameGaps(db, after)
  {
    hide Consistent, YtdGap, Pay, Collect;
    var ids := Named(db, cw, cd, last);
    if |ids| == 0 { CollectKeeps(db, w, d, amount); } else { PayKeeps(db, w, d, (cw, cd, ids[(|ids| - 1) / 2]),
        amount); }
  }

  // ----- delivery -----

  /** The oldest queued order is the first of the interval. */
  lemma OldestQueued(db: Db, w: int, d: int, first: int)
    requires (w, d) in db.districts && QueueFrom(db, w, d, first)
    ensures Queued(db, w, d) == {} <==> first == db.districts[(w, d)].nextOrder
    ensures Queued(db, w, d) != {} ==> Least(Queued(db, w, d)) == first
  {
    assert (w, d, first) in db.queue <==> first in Queued(db, w, d);
    assert forall o | o in Queued(db, w, d) :: (w, d, o) in db.queue && first <= o;
  }

  /** The first queued order of a consistent district. */
  ghost predicate Due(db: Db, w: int, d: int, o: int) {
    (w, d) in db.districts && DistrictOk(db, w, d) && QueueFrom(db, w, d, o) && o < db.districts[(w, d)].nextOrder
  }

  lemma SendDistrict(db: Db, w: int, d: int, o: int, carrier: int, date: int)
    requires Due(db, w, d, o) && date != 0
    ensures DistrictOk(Send(db, w, d, o, carrier, date), w, d)
  {
    hide AllLines;
    var after := Send(db, w, d, o, carrier, date);
    DateLinesAt(db.lines, w, d, o, date, db.orders[(w, d, o)].count);
    assert QueueFrom(after, w, d, o + 1);
    assert QueuedLines(after, w, d);
  }

  lemma SendOther(db: Db, w: int, d: int, o: int, carrier: int, date: int, e: DistrictKey)
    requires Due(db, w, d, o) && e in db.districts && e != (w, d)
    ensures SameDistrict(db, Send(db, w, d, o, carrier, date), e.0, e.1)
  {
    hide AllLines;
    DateLinesAt(db.lines, w, d, o, date, db.orders[(w, d, o)].count);
  }

  /** The orders of the district other than the delivered one are untouched. */
  lemma SendSameOrder(db: Db, w: int, d: int, o: int, carrier: int, date: int, i: int)
    requires Due(db, w, d, o) && i != o
    ensures SameOrder(db, Send(db, w, d, o, carrier, date), w, d, i)
  {
    hide AllLines;
    DateLinesAt(db.lines, w, d, o, date, db.orders[(w, d, o)].count);
  }

  /** The sum that goes to the customer is what the order's delivered amount grows by: it was zero before. */
  lemma SendGrows(db: Db, w: int, d: int, o: int, carrier: int, date: int, c: int)
    requires Due(db, w, d, o) && date != 0
    ensures DeliveredOrder(db, w, d, c, o) == 0.0
    ensures DeliveredOrder(Send(db, w, d, o, carrier, date), w, d, c, o)
      == if db.orders[(w, d, o)].customer == c then AllLines(db.lines, w, d, o, db.orders[(w, d, o)].count) else 0.0
  {
    var n := db.orders[(w, d, o)].count;
    UndeliveredLines(db.lines, w, d, o, n);
    DatedLines(db.lines, w, d, o, date, n, n);
  }

  lemma SendBalanced(db: Db, w: int, d: int, o: int, carrier: int, date: int, k: CustomerKey)
    requires Due(db, w, d, o) && date != 0
    requires k in db.customers && k.0 == w && k.1 == d && Balanced(db, k)
    ensures Balanced(Send(db, w, d, o, carrier, date), k)
  {
    var after := Send(db, w, d, o, carrier, date);
    var last := db.districts[(w, d)].nextOrder - 1;
    forall i | 1 <= i <= last && i != o
      ensures SameOrder(db, after, w, d, i)
    {
      SendSameOrder(db, w, d, o, carrier, date, i);
    }
    DeliveredChange(db, after, w, d, k.2, o, last);
    SendGrows(db, w, d, o, carrier, date, k.2);
    SendCredits(db, w, d, o, carrier, date, k);
  }

  lemma SendFrame(db: Db, w: int, d: int, o: int, carrier: int, date: int)
    ensures var after := Send(db, w, d, o, carrier, date);
      && after.warehouses == db.warehouses && after.districts == db.districts
      && after.names == db.names && after.history == db.history
    ensures Send(db, w, d, o, carrier, date).customers.Keys == db.customers.Keys
  {
    hide AllLines, DateLines;
    if (w, d, o) in db.orders {
      var c := (w, d, db.orders[(w, d, o)].customer);
      AddToKeys(db, c, AllLines(db.lines, w, d, o, db.orders[(w, d, o)].count));
    }
  }

  lemma AddToKeys(db: Db, c: CustomerKey, total: real)
    ensures AddTo(db, c, total).Keys == db.customers.Keys
  {
  }

  lemma SendCredits(db: Db, w: int, d: int, o: int, carrier: int, date: int, k: CustomerKey)
    requires Due(db, w, d, o) && k in db.customers
    ensures k in Send(db, w, d, o, carrier, date).customers
    ensures Send(db, w, d, o, carrier, date).customers[k].ytdPayment == db.customers[k].ytdPayment
    ensures Send(db, w, d, o, carrier, date).customers[k].balance == db.customers[k].balance
      + if k == (w, d, db.orders[(w, d, o)].customer) then AllLines(db.lines, w, d, o,
          db.orders[(w, d, o)].count) else 0.0
  {
  }

  lemma SendDistrictsOk(db: Db, w: int, d: int, o: int, carrier: int, date: int, e: DistrictKey)
    requires Due(db, w, d, o) && date != 0 && DistrictsOk(db) && e in db.districts
    ensures DistrictOk(Send(db, w, d, o, carrier, date), e.0, e.1)
  {
    hide DistrictOk, Send, Due;
    assert (w, d) in db.districts by { DueDistrict(db, w, d, o); }
    if e == (w, d) { SendDistrict(db, w, d, o, carrier, date); }
    else {
      SendOther(db, w, d, o, carrier, date, e);
      assert DistrictOk(db, e.0, e.1);
      SameDistrictOk(db, Send(db, w, d, o, carrier, date), e.0, e.1);
    }
  }

  lemma DueDistrict(db: Db, w: int, d: int, o: int)
    requires Due(db, w, d, o)
    ensures (w, d) in db.districts
  {
  }

  lemma SendCustomersOk(db: Db, w: int, d: int, o: int, carrier: int, date: int, k: CustomerKey)
    requires Due(db, w, d, o) && date != 0
    requires k in db.customers && (k.0, k.1) in db.districts && Balanced(db, k)
    ensures k in Send(db, w, d, o, carrier, date).customers && Balanced(Send(db, w, d, o, carrier, date), k)
  {
    hide DistrictOk, Balanced, Send, SameDistrict, AllLines;
    SendFrame(db, w, d, o, carrier, date);
    SendCredits(db, w, d, o, carrier, date, k);
    if (k.0, k.1) == (w, d) { SendBalanced(db, w, d, o, carrier, date, k); }
    else { SendOther(db, w, d, o, carrier, date, (k.0, k.1)); SameBalanced(db, Send(db, w, d, o, carrier, date), k); }
  }

  lemma SendKeeps(db: Db, w: int, d: int, o: int, carrier: int, date: int)
    requires Due(db, w, d, o) && date != 0 && Consistent(db)
    ensures Consistent(Send(db, w, d, o, carrier, date)) && SameGaps(db, Send(db, w, d, o, carrier, date))
  {
    hide DistrictOk, Balanced, Send, Due;
    SendFrame(db, w, d, o, carrier, date);
    var after := Send(db, w, d, o, carrier, date);
    forall e | e in after.districts
      ensures DistrictOk(after, e.0, e.1)
    {
      SendDistrictsOk(db, w, d, o, carrier, date, e);
    }
    forall k | k in after.customers ensures Balanced(after, k) { SendCustomersOk(db, w, d, o, carrier, date, k); }
    forall k | k in db.customers
      ensures PaidGap(after, k) == PaidGap(db, k)
    {
      SendCredits(db, w, d, o, carrier, date, k);
    }
    forall v | v in db.warehouses ensures YtdGap(after, v) == YtdGap(db, v) {
      DistrictYtdSame(db, after, v, DISTRICTS);
    }
  }

  lemma DeliverOneKeeps(db: Db, w: int, d: int, carrier: int, date: int)
    requires (w, d) in db.districts && date != 0 && Consistent(db)
    ensures Consistent(DeliverOne(db, w, d, carrier, date)) && SameGaps(db, DeliverOne(db, w, d, carrier, date))
  {
    hide Send, Balanced, YtdGap, PaidGap;
    assert DistrictOk(db, w, d);
    var first :| QueueFrom(db, w, d, first);
    OldestQueued(db, w, d, first);
    if Queued(db, w, d) != {} { SendKeeps(db, w, d, first, carrier, date); }
  }

  lemma {:induction false} DeliverKeeps(db: Db, w: int, carrier: int, date: int, d: nat)
    requires w in db.warehouses && d <= DISTRICTS && date != 0 && Consistent(db)
    ensures Consistent(Deliver(db, w, carrier, date, d)) && SameGaps(db, Deliver(db, w, carrier, date, d))
  {
    hide DeliverOne, DistrictOk, Balanced, YtdGap, PaidGap;
    if d > 0 {
      DeliverKeeps(db, w, carrier, date, d - 1);
      DeliverOneKeeps(Deliver(db, w, carrier, date, d - 1), w, d, carrier, date);
    }
  }

  // ----- runs -----

  lemma ApplyKeeps(db: Db, tx: Tx)
    requires CanRun(db, tx) && Consistent(db)
    ensures Consistent(Apply(db, tx)) && SameGaps(db, Apply(db, tx))
  {
    hide Consistent, SameGaps, NewOrder, Deliver, Pay, PayByName;
    match tx
    case OrderTx(w, d, c, requests) => NewOrderKeeps(db, w, d, c, requests);
    case DeliveryTx(w, carrier, date) => DeliverKeeps(db, w, carrier, date, DISTRICTS);
    case PaymentTx(w, d, customer, amount) => PayKeeps(db, w, d, customer, amount);
    case NameTx(w, d, cw, cd, last, amount) => PayByNameKeeps(db, w, d, cw, cd, last, amount);
  }

  lemma {:induction false} RunKeeps(states: seq<Db>, txs: seq<Tx>, i: nat)
    requires IsRun(states, txs) && Consistent(states[0]) && i <= |txs|
    ensures Consistent(states[i]) && SameGaps(states[0], states[i])
  {
    hide Consistent, Apply, YtdGap, PaidGap;
    if i > 0 {
      RunKeeps(states, txs, i - 1);
      ApplyKeeps(states[i - 1], txs[i - 1]);
    }
  }

  lemma {:induction false} NothingDelivered(db: Db, w: int, d: int, c: int, k: int)
    requires (w, d) in db.districts && LoadedDistrict(db, w, d)
    ensures Delivered(db, w, d, c, k) == 0.0
    decreases k
  {
    if k > 0 {
      NothingDelivered(db, w, d, c, k - 1);
      if (w, d, k) in db.orders { UndeliveredLines(db.lines, w, d, k, db.orders[(w, d, k)].count); }
    }
  }

  /** The loaded tables are consistent, although order 2100 is delivered and queued at once. */
  lemma LoadedConsistent(db: Db)
    requires Loaded(db)
    ensures Consistent(db)
  {
    forall w, d | (w, d) in db.districts ensures DistrictOk(db, w, d) { LoadedOk(db, w, d); }
    forall c | c in db.customers ensures Balanced(db, c) {
      assert (c.0, c.1) in db.districts;
      NothingDelivered(db, c.0, c.1, c.2, 3000);
    }
  }

  lemma LoadedOk(db: Db, w: int, d: int)
    requires (w, d) in db.districts && LoadedDistrict(db, w, d)
    ensures DistrictOk(db, w, d)
  {
    assert QueueFrom(db, w, d, 2100);
  }

  /** The loaded totals of ten districts against that of their warehouse: 27,000,000 too much, and it stays so. */
  lemma LoadedGap(db: Db, w: int)
    requires Loaded(db) && w in db.warehouses
    ensures YtdGap(db, w) == -27000000.0
  {
    LoadedYtd(db, w, DISTRICTS);
  }

  lemma {:induction false} LoadedYtd(db: Db, w: int, n: nat)
    requires Loaded(db) && w in db.warehouses && n <= DISTRICTS
    ensures DistrictYtd(db, w, n) == 3000000.0 * n as real
  {
    if n > 0 {
      LoadedYtd(db, w, n - 1);
      assert LoadedDistrict(db, w, n);
    }
  }

  /** Every state of every run from the loaded tables. The last clause shows that yearly payments and balance
      do not add up to the delivered amounts (clause 3.3.2.12): the loaded rows are 9 short, for good. */
  lemma LoadedRun(states: seq<Db>, txs: seq<Tx>, i: nat, w: int, d: int, c: int)
    requires IsRun(states, txs) && Loaded(states[0]) && i <= |txs|
    requires w in states[i].warehouses && 1 <= d <= DISTRICTS
    ensures (w, d) in states[i].districts
    ensures OrderIds(states[i], w, d) && Queue(states[i], w, d) && OrderLines(states[i], w, d)
    ensures YtdGap(states[i], w) == -27000000.0
    ensures (w, d, c) in states[i].customers ==>
              var rec := states[i].customers[(w, d, c)];
              var delivered := Delivered(states[i], w, d, c, states[i].districts[(w, d)].nextOrder - 1);
              rec.balance == delivered - Paid(states[i].history, (w, d, c))
                  && rec.balance + rec.ytdPayment == delivered - 9.0
  {
    hide OrderIds, Queue, OrderLines, Apply, YtdGap, LoadedDistrict, Delivered;
    LoadedConsistent(states[0]);
    RunKeeps(states, txs, i);
    assert w in states[0].warehouses;
    LoadedGap(states[0], w);
    assert DistrictOk(states[i], w, d);
    if (w, d, c) in states[i].customers {
      assert Balanced(states[i], (w, d, c));
      assert PaidGap(states[i], (w, d, c)) == PaidGap(states[0], (w, d, c)) == -9.0;
    }
  }
}
