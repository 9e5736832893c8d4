/** The transactions of TPC-C on tables that they update in place. */
module Tpcc {
  import opened Tables
  import opened TableProofs

  method PriceLine(quantity: int, price: real, warehouseTax: real, districtTax: real, discount: real)
    returns (amount: real)
    ensures amount == LineAmount(quantity, price, warehouseTax, districtTax, discount)
  {
    amount := quantity as real * price * (1.0 + warehouseTax + districtTax) * (1.0 - discount);
  }

  class Workload {
    var warehouses: map<int, Warehouse>
    var districts: map<DistrictKey, District>
    var customers: map<CustomerKey, Customer>
    var names: map<(int, int, string), seq<int>>
    var orders: map<OrderKey, Order>
    var queue: set<OrderKey>
    var lines: map<LineKey, Line>
    var history: seq<Payment>
    var prices: map<int, real>

    function State(): Db
      reads this
    {
      Db(warehouses, districts, customers, names, orders, queue, lines, history, prices)
    }

    constructor (db: Db)
      ensures State() == db
    {
      warehouses, districts, customers, names := db.warehouses, db.districts, db.customers, db.names;
      orders, queue, lines, history, prices := db.orders, db.queue, db.lines, db.history, db.prices;
    }

    method PlaceOrder(w: int, d: int, c: int, requests: seq<Request>)
      requires CanOrder(State(), w, d, c, requests)
      modifies this
      ensures State() == NewOrder(old(State()), w, d, c, requests)
    {
      hide LineAmount;
      ghost var before := State();
      var tax, discount := warehouses[w].tax, customers[(w, d, c)].discount;
      var district := districts[(w, d)];
      var o := district.nextOrder;
      districts := districts[(w, d) := district.(nextOrder := o + 1)];
      orders := orders[(w, d, o) := Order(c, 0, |requests|)];
      queue := queue + {(w, d, o)};
      for i := 0 to |requests|
        modifies this`lines
        invariant lines == NewLines(before, w, d, c, o, requests, i)
      {
        var price := prices[requests[i].item];
        var amount := PriceLine(requests[i].quantity, price, tax, district.tax, discount);
        lines := lines[(w, d, o, i + 1) := Line(requests[i].item, requests[i].quantity, amount, 0)];
      }
    }

    method CollectPayment(w: int, d: int, amount: real)
      requires w in warehouses && (w, d) in districts
      modifies this
      ensures State() == Collect(old(State()), w, d, amount)
    {
      warehouses := warehouses[w := warehouses[w].(ytd := warehouses[w].ytd + amount)];
      districts := districts[(w, d) := districts[(w, d)].(ytd := districts[(w, d)].ytd + amount)];
    }

    method PaymentById(w: int, d: int, c: CustomerKey, amount: real)
      requires CanPay(State(), w, d, c)
      modifies this
      ensures State() == Pay(old(State()), w, d, c, amount)
    {
      CollectPayment(w, d, amount);
      CreditCustomer(w, d, c, amount);
    }

    method CreditCustomer(w: int, d: int, c: CustomerKey, amount: real)
      requires c in customers
      modifies this
      ensures State() == Credit(old(State()), w, d, c, amount)
    {
      var rec := customers[c];
      var balance, total, count := rec.balance - amount, rec.ytdPayment + amount, rec.paymentCnt + 1;
      customers := customers[c := rec.(balance := balance, ytdPayment := total, paymentCnt := count)];
      history := history + [Payment(c, (w, d), amount)];
    }

    method PaymentByName(w: int, d: int, cw: int, cd: int, last: string, amount: real)
      requires CanPayByName(State(), w, d, cw, cd, last)
      modifies this
      ensures State() == PayByName(old(State()), w, d, cw, cd, last, amount)
    {
      CollectPayment(w, d, amount);
      var ids := if (cw, cd, last) in names then names[(cw, cd, last)] else [];
      var count := |ids|;
      assert ids == Named(old(State()), cw, cd, last);
      if count == 0 { return; }
      var index := count / 2;
      if count % 2 == 0 { index := index - 1; }
      assert index == (count - 1) / 2;
      CreditCustomer(w, d, (cw, cd, ids[index]), amount);
    }

    method FirstQueued(w: int, d: int) returns (found: bool, o: int)
      ensures found <==> Queued(State(), w, d) != {}
      ensures found ==> o == Least(Queued(State(), w, d))
    {
      var ids := Queued(State(), w, d);
      found, o := ids != {}, 0;
      if found {
        LeastExists(ids);
        o :| o in ids && forall x | x in ids :: o <= x;
      }
    }

    /** Dates the lines of an order and adds up their amounts. */
    method DateOrder(w: int, d: int, o: int, date: int, count: nat) returns (total: real)
      modifies this`lines
      ensures lines == DateLines(old(lines), w, d, o, date, count)
      ensures total == AllLines(old(lines), w, d, o, count)
    {
      total := 0.0;
      for n := 1 to count + 1
        modifies this`lines
        invariant lines == DateLines(old(lines), w, d, o, date, n - 1)
        invariant total == AllLines(old(lines), w, d, o, n - 1)
      {
        DateLinesAt(old(lines), w, d, o, date, n - 1);
        if (w, d, o, n) in lines {
          total := total + lines[(w, d, o, n)].amount;
          lines := lines[(w, d, o, n) := lines[(w, d, o, n)].(delivered := date)];
        }
      }
    }

    method SendOrder(w: int, d: int, o: int, carrier: int, date: int)
      modifies this
      ensures State() == Send(old(State()), w, d, o, carrier, date)
    {
      queue := queue - {(w, d, o)};
      if (w, d, o) !in orders { return; }
      var count, c := orders[(w, d, o)].count, (w, d, orders[(w, d, o)].customer);
      orders := orders[(w, d, o) := orders[(w, d, o)].(carrier := carrier)];
      if (w, d, o, count) !in lines { return; }
      var total := DateOrder(w, d, o, date, count);
      if c in customers {
        var rec := customers[c];
        customers := customers[c := rec.(balance := rec.balance + total, deliveryCnt := rec.deliveryCnt + 1)];
      }
    }

    method Delivery(w: int, carrier: int, date: int)
      modifies this
      ensures State() == Deliver(old(State()), w, carrier, date, DISTRICTS)
    {
      for d := 1 to DISTRICTS + 1
        invariant State() == Deliver(old(State()), w, carrier, date, d - 1)
      {
        var found, o := FirstQueued(w, d);
        if found { SendOrder(w, d, o, carrier, date); }
      }
    }

    // ----- loading -----

    /** The lines of one loaded order: delivered and free below order 2101. */
    method LoadLines(w: int, d: int, o: int, now: int, picks: seq<(int, real)>)
      requires now != 0
      modifies this`lines
      ensures LinesLoaded(old(lines), lines, w, d, o, now, picks, |picks|)
    {
      for n := 1 to |picks| + 1
        modifies this`lines
        invariant LinesLoaded(old(lines), lines, w, d, o, now, picks, n - 1)
      {
        var delivered := if o < 2101 then now else 0;
        var amount := if o < 2101 then 0.0 else picks[n - 1].1;
        lines := lines[(w, d, o, n) := Line(picks[n - 1].0, 5, amount, delivered)];
      }
    }

    method LoadRows(w: int, d: int, now: int, picks: seq<Pick>)
      requires now != 0
      requires forall k | k in orders :: (k.0, k.1) != (w, d)
      requires forall k | k in lines :: (k.0, k.1) != (w, d)
      modifies this`orders, this`lines
      ensures RowsLoaded(old(orders), orders, old(lines), lines, w, d, now, picks, |picks| + 1)
    {
      hide RowsLoaded, LinesLoaded;
      NoRows(orders, lines, w, d, now, picks);
      for o := 1 to |picks| + 1
        modifies this`orders, this`lines
        invariant RowsLoaded(old(orders), orders, old(lines), lines, w, d, now, picks, o)
      {
        var pick := picks[o - 1];
        var carrier := if o < 2101 then pick.carrier else 0;
        ghost var wasOrders, wasLines := orders, lines;
        orders := orders[(w, d, o) := Order(pick.customer, carrier, |pick.lines|)];
        LoadLines(w, d, o, now, pick.lines);
        RowStep(old(orders), wasOrders, old(lines), wasLines, lines, w, d, now, picks, o);
      }
    }

    method LoadQueue(w: int, d: int)
      modifies this`queue
      ensures forall k :: k in queue <==> k in old(queue) || (k.0 == w && k.1 == d && 2100 <= k.2 <= 3000)
    {
      for i := 2100 to 3001
        modifies this`queue
        invariant forall k :: k in queue <==> k in old(queue) || (k.0 == w && k.1 == d && 2100 <= k.2 < i)
      {
        queue := queue + {(w, d, i)};
      }
    }

    /** Orders 1 to 3000 of a district; those from 2100 on are queued, so 2100 is delivered and queued. */
    method LoadOrders(w: int, d: int, now: int, picks: seq<Pick>)
      requires (w, d) in districts && districts[(w, d)].nextOrder == 3001 && districts[(w, d)].ytd == 3000000.0
      requires |picks| == 3000 && now != 0 && forall i | 0 <= i < 3000 :: (w, d, picks[i].customer) in customers
      requires forall k | k in orders || k in queue :: (k.0, k.1) != (w, d)
      requires forall k | k in lines :: (k.0, k.1) != (w, d)
      modifies this`orders, this`lines, this`queue
      ensures LoadedDistrict(State(), w, d) && RowsLoaded(old(orders), orders, old(lines), lines, w, d, now, picks, 3001)
      ensures forall k :: k in old(orders) ==> k in orders && orders[k] == old(orders)[k]
      ensures forall k :: k in old(lines) ==> k in lines && lines[k] == old(lines)[k]
      ensures forall k: OrderKey | (k.0, k.1) != (w, d) :: (k in orders ==> k in old(orders)) && (k in queue <==> k in old(queue))
      ensures forall k: LineKey | (k.0, k.1) != (w, d) :: k in lines ==> k in old(lines)
    {
      hide RowsLoaded, LoadedDistrict;
      LoadRows(w, d, now, picks);
      LoadQueue(w, d);
      RowsLoad(old(orders), old(lines), old(queue), State(), w, d, now, picks);
    }
  }

  /** The orders `1` to `o - 1` of the district are those picked, with their lines; the rest is as it was. */
  ghost predicate RowsLoaded(wasOrders: map<OrderKey, Order>, orders: map<OrderKey, Order>, wasLines: map<LineKey, Line>,
                             lines: map<LineKey, Line>, w: int, d: int, now: int, picks: seq<Pick>, o: int)
    requires o <= |picks| + 1
  {
    && (forall k :: k in orders <==> k in wasOrders || (k.0 == w && k.1 == d && 1 <= k.2 < o))
    && (forall k | k in wasOrders :: k in orders && orders[k] == wasOrders[k])
    && (forall i: int | 1 <= i < o :: (w, d, i) in orders && PickedOrder(i, picks[i - 1], orders[(w, d, i)]))
    && (forall k :: k in lines <==> k in wasLines || OfPick(k, w, d, o, picks))
    && (forall k | k in wasLines :: k in lines && lines[k] == wasLines[k])
    && (forall k | k in lines && OfPick(k, w, d, o, picks) :: PickedLine(k.2, now, picks[k.2 - 1].lines[k.3 - 1], lines[k]))
  }

  /** With all picked rows and the queue the district is loaded, and nothing else is. */
  lemma RowsLoad(wasOrders: map<OrderKey, Order>, wasLines: map<LineKey, Line>, wasQueue: set<OrderKey>, db: Db, w: int,
                 d: int, now: int, picks: seq<Pick>)
    requires |picks| == 3000 && RowsLoaded(wasOrders, db.orders, wasLines, db.lines, w, d, now, picks, 3001) && now != 0
    requires forall k :: k in db.queue <==> k in wasQueue || (k.0 == w && k.1 == d && 2100 <= k.2 <= 3000)
    requires (w, d) in db.districts && db.districts[(w, d)].nextOrder == 3001 && db.districts[(w, d)].ytd == 3000000.0
    requires forall i | 0 <= i < 3000 :: (w, d, picks[i].customer) in db.customers
    requires forall k | k in wasOrders || k in wasQueue :: (k.0, k.1) != (w, d)
    requires forall k | k in wasLines :: (k.0, k.1) != (w, d)
    ensures LoadedDistrict(db, w, d)
    ensures forall k :: k in wasOrders ==> k in db.orders && db.orders[k] == wasOrders[k]
    ensures forall k :: k in wasLines ==> k in db.lines && db.lines[k] == wasLines[k]
    ensures forall k: OrderKey | (k.0, k.1) != (w, d) :: (k in db.orders ==> k in wasOrders) && (k in db.queue <==> k in wasQueue)
    ensures forall k: LineKey | (k.0, k.1) != (w, d) :: k in db.lines ==> k in wasLines
  {
  }

  /** Orders below 2101 have a carrier. */
  predicate PickedOrder(o: int, pick: Pick, order: Order) {
    order.customer == pick.customer && order.count == |pick.lines| && order.carrier == if o < 2101 then pick.carrier else 0
  }

  /** Lines of orders below 2101 are free and delivered now, the others have their price and are not delivered. */
  predicate PickedLine(o: int, now: int, pick: (int, real), line: Line) {
    && line.item == pick.0 && line.quantity == 5
    && if o < 2101 then line.amount == 0.0 && line.delivered == now else line.amount == pick.1 && line.delivered == 0
  }

  /** The order has the lines 1 to `n` as picked; all lines of other orders are as they were. */
  ghost predicate LinesLoaded(was: map<LineKey, Line>, lines: map<LineKey, Line>, w: int, d: int, o: int, now: int,
                              picks: seq<(int, real)>, n: int)
    requires n <= |picks|
  {
    && (forall k :: k in lines <==> k in was || (k.0 == w && k.1 == d && k.2 == o && 1 <= k.3 <= n))
    && (forall k | k in was && !(k.0 == w && k.1 == d && k.2 == o) :: lines[k] == was[k])
    && (forall i: int | 1 <= i <= n :: (w, d, o, i) in lines && PickedLine(o, now, picks[i - 1], lines[(w, d, o, i)]))
  }

  lemma NoRows(orders: map<OrderKey, Order>, lines: map<LineKey, Line>, w: int, d: int, now: int, picks: seq<Pick>)
    ensures RowsLoaded(orders, orders, lines, lines, w, d, now, picks, 1)
  {
  }

  lemma RowStep(oldOrders: map<OrderKey, Order>, orders: map<OrderKey, Order>, oldLines: map<LineKey, Line>,
                lines: map<LineKey, Line>, after: map<LineKey, Line>, w: int, d: int, now: int, picks: seq<Pick>, o: int)
    requires 1 <= o <= |picks| && RowsLoaded(oldOrders, orders, oldLines, lines, w, d, now, picks, o)
    requires forall k | k in oldOrders :: (k.0, k.1) != (w, d)
    requires forall k | k in oldLines :: (k.0, k.1) != (w, d)
    requires LinesLoaded(lines, after, w, d, o, now, picks[o - 1].lines, |picks[o - 1].lines|)
    ensures var order := Order(picks[o - 1].customer, if o < 2101 then picks[o - 1].carrier else 0, |picks[o - 1].lines|);
      RowsLoaded(oldOrders, orders[(w, d, o) := order], oldLines, after, w, d, now, picks, o + 1)
  {
    forall k | k in after && OfPick(k, w, d, o + 1, picks)
      ensures PickedLine(k.2, now, picks[k.2 - 1].lines[k.3 - 1], after[k])
    {
      if k.2 == o { assert k == (w, d, o, k.3); }
    }
  }

  /** The key of a line of one of the orders picked before `o`. */
  predicate OfPick(k: LineKey, w: int, d: int, o: int, picks: seq<Pick>)
    requires o <= |picks| + 1
  {
    k.0 == w && k.1 == d && 1 <= k.2 < o && 1 <= k.3 <= |picks[k.2 - 1].lines|
  }
}
