/** The tables of TPC-C, what each transaction does to them, and the consistency conditions. Amounts are
    real numbers. A delivery date of 0 stands for "not delivered". */
module Tables {
  type DistrictKey = (int, int)
  type CustomerKey = (int, int, int)
  type OrderKey = (int, int, int)
  type LineKey = (int, int, int, int)

  const DISTRICTS := 10

  datatype Warehouse = Warehouse(tax: real, ytd: real)
  datatype District = District(tax: real, ytd: real, nextOrder: int)
  datatype Customer = Customer(discount: real, balance: real, ytdPayment: real, paymentCnt: int, deliveryCnt: int)
  datatype Order = Order(customer: int, carrier: int, count: nat)
  datatype Line = Line(item: int, quantity: int, amount: real, delivered: int)
  datatype Payment = Payment(customer: CustomerKey, district: DistrictKey, amount: real)

  /** `names` lists the customers with a last name in the order of their first names. */
  datatype Db = Db(warehouses: map<int, Warehouse>, districts: map<DistrictKey, District>,
                   customers: map<CustomerKey, Customer>, names: map<(int, int, string), seq<int>>,
                   orders: map<OrderKey, Order>, queue: set<OrderKey>, lines: map<LineKey, Line>,
                   history: seq<Payment>, prices: map<int, real>)

  // ----- sums -----

  /** Amount of the delivered lines among the first `n` of an order. */
  function DeliveredLines(lines: map<LineKey, Line>, w: int, d: int, o: int, n: nat): real {
    if n == 0 then 0.0
    else DeliveredLines(lines, w, d, o, n - 1) +
         if (w, d, o, n) in lines && lines[(w, d, o, n)].delivered != 0 then lines[(w, d, o, n)].amount else 0.0
  }

  function AllLines(lines: map<LineKey, Line>, w: int, d: int, o: int, n: nat): real {
    if n == 0 then 0.0
    else AllLines(lines, w, d, o, n - 1) + if (w, d, o, n) in lines then lines[(w, d, o, n)].amount else 0.0
  }

  /** What has been delivered of order `o` if it belongs to customer `c`. */
  function DeliveredOrder(db: Db, w: int, d: int, c: int, o: int): real {
    if (w, d, o) in db.orders && db.orders[(w, d, o)].customer == c
    then DeliveredLines(db.lines, w, d, o, db.orders[(w, d, o)].count) else 0.0
  }

  /** Delivered amount of the customer's orders up to `k`. */
  function Delivered(db: Db, w: int, d: int, c: int, k: int): real
    decreases k
  {
    if k <= 0 then 0.0 else Delivered(db, w, d, c, k - 1) + DeliveredOrder(db, w, d, c, k)
  }

  function Paid(history: seq<Payment>, c: CustomerKey): real {
    if |history| == 0 then 0.0
    else Paid(history[..|history| - 1],
        c) + if history[|history| - 1].customer == c then history[|history| - 1].amount else 0.0
  }

  function DistrictYtd(db: Db, w: int, n: nat): real {
    if n == 0 then 0.0 else DistrictYtd(db, w, n - 1) + if (w, n) in db.districts then db.districts[(w, n)].ytd else 0.0
  }

  // ----- consistency -----

  /** Order ids run from 1 to below the next one (clause 3.3.2.2). */
  ghost predicate OrderIds(db: Db, w: int, d: int)
    requires (w, d) in db.districts
  {
    db.districts[(w, d)].nextOrder >= 1 &&
    forall o :: (w, d, o) in db.orders <==> 1 <= o < db.districts[(w, d)].nextOrder
  }

  /** Each order has exactly the lines 1 to its count (clause 3.3.2.4). */
  ghost predicate OrderLines(db: Db, w: int, d: int) {
    forall o, n :: (w, d, o, n) in db.lines <==> (w, d, o) in db.orders && 1 <= n <= db.orders[(w, d, o)].count
  }

  /** Undelivered orders are an interval that ends at the newest order (clauses 3.3.2.2 and 3.3.2.3). */
  ghost predicate Queue(db: Db, w: int, d: int)
    requires (w, d) in db.districts
  {
    exists first :: QueueFrom(db, w, d, first)
  }

  ghost predicate QueueFrom(db: Db, w: int, d: int, first: int)
    requires (w, d) in db.districts
  {
    1 <= first <= db.districts[(w, d)].nextOrder &&
    forall o :: (w, d, o) in db.queue <==> first <= o < db.districts[(w, d)].nextOrder
  }

  /** A queued order has delivered lines only if their amount is zero: the loaded order 2100. */
  ghost predicate QueuedLines(db: Db, w: int, d: int) {
    forall o, n | (w, d, o) in db.queue && (w, d, o, n) in db.lines && db.lines[(w, d, o, n)].delivered != 0 ::
      db.lines[(w, d, o, n)].amount == 0.0
  }

  ghost predicate OrderCustomers(db: Db, w: int, d: int) {
    forall o | (w, d, o) in db.orders :: (w, d, db.orders[(w, d, o)].customer) in db.customers
  }

  ghost predicate DistrictOk(db: Db, w: int, d: int)
    requires (w, d) in db.districts
  {
    OrderIds(db, w, d) && OrderLines(db, w, d) && Queue(db, w, d) && QueuedLines(db, w, d) && OrderCustomers(db, w, d)
  }

  /** The balance is what was delivered less what was paid (clause 3.3.2.10). */
  ghost predicate Balanced(db: Db, c: CustomerKey)
    requires c in db.customers && (c.0, c.1) in db.districts
  {
    db.customers[c].balance == Delivered(db, c.0, c.1, c.2, db.districts[(c.0, c.1)].nextOrder - 1) - Paid(db.history,
        c)
  }

  /** Ten districts a warehouse; customers belong to a district, and names lead to customers. */
  ghost predicate Keyed(db: Db) {
    && (forall w, d :: (w, d) in db.districts <==> w in db.warehouses && 1 <= d <= DISTRICTS)
    && (forall c | c in db.customers :: (c.0, c.1) in db.districts)
    && (forall k, i | k in db.names && 0 <= i < |db.names[k]| :: (k.0, k.1, db.names[k][i]) in db.customers)
  }

  ghost predicate DistrictsOk(db: Db) {
    forall w, d | (w, d) in db.districts :: DistrictOk(db, w, d)
  }

  ghost predicate Consistent(db: Db) {
    Keyed(db) && DistrictsOk(db) && forall c | c in db.customers :: Balanced(db, c)
  }

  /** Warehouse total less district totals. */
  function YtdGap(db: Db, w: int): real
    requires w in db.warehouses
  {
    db.warehouses[w].ytd - DistrictYtd(db, w, DISTRICTS)
  }

  /** What the customer's row says was paid, less the recorded payments. */
  function PaidGap(db: Db, c: CustomerKey): real
    requires c in db.customers
  {
    db.customers[c].ytdPayment - Paid(db.history, c)
  }

  /** The same warehouses and customers, each with the same gap between its running total and what it sums up. */
  ghost predicate SameGaps(a: Db, b: Db) {
    && a.warehouses.Keys == b.warehouses.Keys && (forall w | w in a.warehouses :: YtdGap(b, w) == YtdGap(a, w))
    && a.customers.Keys == b.customers.Keys && (forall c | c in a.customers :: PaidGap(b, c) == PaidGap(a, c))
  }

  // ----- the initial load -----

  /** Every district has the orders 1 to 3000. Those below 2101 are delivered and free; 2100 to 3000 are queued.
      Every customer has paid 10 once. Which customer ordered what is left open. */
  ghost predicate LoadedDistrict(db: Db, w: int, d: int)
    requires (w, d) in db.districts
  {
    && db.districts[(w, d)].nextOrder == 3001 && db.districts[(w, d)].ytd == 3000000.0
    && (forall o :: (w, d, o) in db.orders <==> 1 <= o <= 3000)
    && (forall o :: (w, d, o) in db.queue <==> 2100 <= o <= 3000)
    && OrderLines(db, w, d) && OrderCustomers(db, w, d)
    && (forall o, n | (w, d, o, n) in db.lines :: LoadedLine(o, db.lines[(w, d, o, n)]))
  }

  predicate LoadedLine(o: int, line: Line) {
    if o < 2101 then line.delivered != 0 && line.amount == 0.0 else line.delivered == 0
  }

  /** The loader sets the yearly payments to 1, not to the 10 that were paid. */
  predicate LoadedCustomer(c: Customer) {
    c.balance == -10.0 && c.ytdPayment == 1.0 && c.paymentCnt == 0 && c.deliveryCnt == 0
  }

  ghost predicate Loaded(db: Db) {
    && Keyed(db) && (forall w, d | (w, d) in db.districts :: LoadedDistrict(db, w, d))
    && (forall w | w in db.warehouses :: db.warehouses[w].ytd == 3000000.0)
    && (forall c | c in db.customers :: LoadedCustomer(db.customers[c]) && Paid(db.history, c) == 10.0)
  }

  /** The random choices of the loader for one order: the customer, the carrier, and an item and a price a line. */
  datatype Pick = Pick(customer: int, carrier: int, lines: seq<(int, real)>)

  // ----- new order -----

  datatype Request = Request(item: int, quantity: int)

  /** The price of the items with both taxes added, less the customer's discount. */
  function LineAmount(quantity: int, price: real, warehouseTax: real, districtTax: real, discount: real): real {
    var net := price * quantity as real;
    var gross := net + net * (warehouseTax + districtTax);
    gross - gross * discount
  }

  function Amount(db: Db, w: int, d: int, c: int, r: Request): real
    requires w in db.warehouses && (w, d) in db.districts && (w, d, c) in db.customers && r.item in db.prices
  {
    LineAmount(r.quantity, db.prices[r.item], db.warehouses[w].tax, db.districts[(w, d)].tax,
        db.customers[(w, d, c)].discount)
  }

  predicate CanOrder(db: Db, w: int, d: int, c: int, requests: seq<Request>) {
    w in db.warehouses && (w, d) in db.districts && (w, d, c) in db.customers
    && forall i | 0 <= i < |requests| :: requests[i].item in db.prices
  }

  /** The first `n` lines of the new order `o`. */
  function NewLines(db: Db, w: int, d: int, c: int, o: int, requests: seq<Request>, n: nat): map<LineKey, Line>
    requires CanOrder(db, w, d, c, requests) && n <= |requests|
  {
    if n == 0 then db.lines
    else NewLines(db, w, d, c, o, requests, n - 1)[(w, d, o, n) :=
           Line(requests[n - 1].item, requests[n - 1].quantity, Amount(db, w, d, c, requests[n - 1]), 0)]
  }

  function NewOrder(db: Db, w: int, d: int, c: int, requests: seq<Request>): Db
    requires CanOrder(db, w, d, c, requests)
  {
    var district := db.districts[(w, d)];
    var o := district.nextOrder;
    db.(districts := db.districts[(w, d) := district.(nextOrder := o + 1)],
        orders := db.orders[(w, d, o) := Order(c, 0, |requests|)], queue := db.queue + {(w, d, o)},
        lines := NewLines(db, w, d, c, o, requests, |requests|))
  }

  // ----- payment -----

  predicate CanPay(db: Db, w: int, d: int, c: CustomerKey) {
    w in db.warehouses && (w, d) in db.districts && c in db.customers
  }

  function Collect(db: Db, w: int, d: int, amount: real): Db
    requires w in db.warehouses && (w, d) in db.districts
  {
    db.(warehouses := db.warehouses[w := db.warehouses[w].(ytd := db.warehouses[w].ytd + amount)],
        districts := db.districts[(w, d) := db.districts[(w, d)].(ytd := db.districts[(w, d)].ytd + amount)])
  }

  function Credit(db: Db, w: int, d: int, c: CustomerKey, amount: real): Db
    requires c in db.customers
  {
    var rec := db.customers[c];
    db.(customers := db.customers[c := rec.(balance := rec.balance - amount, ytdPayment := rec.ytdPayment + amount,
                                            paymentCnt := rec.paymentCnt + 1)],
        history := db.history + [Payment(c, (w, d), amount)])
  }

  function Pay(db: Db, w: int, d: int, c: CustomerKey, amount: real): Db
    requires CanPay(db, w, d, c)
  {
    Credit(Collect(db, w, d, amount), w, d, c, amount)
  }

  function Named(db: Db, cw: int, cd: int, last: string): seq<int> {
    if (cw, cd, last) in db.names then db.names[(cw, cd, last)] else []
  }

  predicate CanPayByName(db: Db, w: int, d: int, cw: int, cd: int, last: string) {
    w in db.warehouses && (w, d) in db.districts
    && forall i | 0 <= i < |Named(db, cw, cd, last)| :: (cw, cd, Named(db, cw, cd, last)[i]) in db.customers
  }

  /** The customer in the middle of those with the name, the earlier of the two in the middle. Without one,
      the money is collected all the same, and no payment is recorded. */
  function PayByName(db: Db, w: int, d: int, cw: int, cd: int, last: string, amount: real): Db
    requires CanPayByName(db, w, d, cw, cd, last)
  {
    var ids := Named(db, cw, cd, last);
    if |ids| == 0 then Collect(db, w, d, amount) else Pay(db, w, d, (cw, cd, ids[(|ids| - 1) / 2]), amount)
  }

  // ----- delivery -----

  /** The queued orders of a district. */
  function Queued(db: Db, w: int, d: int): set<int> {
    set k | k in db.queue && k.0 == w && k.1 == d :: k.2
  }

  ghost function Least(s: set<int>): (m: int)
    requires s != {}
    ensures m in s
    ensures forall x | x in s :: m <= x
  {
    LeastExists(s);
    var m :| m in s && forall x | x in s :: m <= x;
    m
  }

  lemma {:induction false} LeastExists(s: set<int>)
    requires s != {}
    ensures exists m :: m in s && forall x | x in s :: m <= x
  {
    assert (forall y :: y !in s) ==> s == {};
    var x :| x in s;
    if s - {x} == {} {
      assert s == {x};
    } else {
      LeastExists(s - {x});
      var m :| m in s - {x} && forall y | y in s - {x} :: m <= y;
      assert forall y | y in s :: y == x || y in s - {x};
      assert if x < m then forall y | y in s :: x <= y else forall y | y in s :: m <= y;
    }
  }

  /** The first `n` lines of an order get a delivery date. */
  function DateLines(lines: map<LineKey, Line>, w: int, d: int, o: int, date: int, n: nat): map<LineKey, Line> {
    if n == 0 then lines
    else
      var before := DateLines(lines, w, d, o, date, n - 1);
      if (w, d, o, n) in before then before[(w, d, o, n) := before[(w, d, o, n)].(delivered := date)] else before
  }

  function AddTo(db: Db, c: CustomerKey, total: real): map<CustomerKey, Customer> {
    if c !in db.customers then db.customers
    else
      var rec := db.customers[c];
      db.customers[c := rec.(balance := rec.balance + total, deliveryCnt := rec.deliveryCnt + 1)]
  }

  /** Order `o` leaves the queue. It is delivered only if it exists and its last line does. */
  function Send(db: Db, w: int, d: int, o: int, carrier: int, date: int): Db {
    var taken := db.(queue := db.queue - {(w, d, o)});
    if (w, d, o) !in db.orders then taken
    else
      var order := db.orders[(w, d, o)];
      var sent := taken.(orders := db.orders[(w, d, o) := order.(carrier := carrier)]);
      if (w, d, o, order.count) !in db.lines then sent
      else sent.(lines := DateLines(db.lines, w, d, o, date, order.count),
                 customers := AddTo(db, (w, d, order.customer), AllLines(db.lines, w, d, o, order.count)))
  }

  /** Delivery in one district: the oldest queued order, if there is one. */
  ghost function DeliverOne(db: Db, w: int, d: int, carrier: int, date: int): Db {
    if Queued(db, w, d) == {} then db else Send(db, w, d, Least(Queued(db, w, d)), carrier, date)
  }

  ghost function Deliver(db: Db, w: int, carrier: int, date: int, d: nat): Db {
    if d == 0 then db else DeliverOne(Deliver(db, w, carrier, date, d - 1), w, d, carrier, date)
  }

  // ----- runs -----

  datatype Tx =
    | OrderTx(w: int, d: int, c: int, requests: seq<Request>)
    | DeliveryTx(w: int, carrier: int, date: int)
    | PaymentTx(w: int, d: int, customer: CustomerKey, amount: real)
    | NameTx(w: int, d: int, cw: int, cd: int, last: string, amount: real)

  /** The rows that the transaction looks up exist. */
  predicate CanRun(db: Db, tx: Tx) {
    match tx
    case OrderTx(w, d, c, requests) => CanOrder(db, w, d, c, requests)
    case DeliveryTx(w, carrier, date) => w in db.warehouses && date != 0
    case PaymentTx(w, d, customer, amount) => CanPay(db, w, d, customer)
    case NameTx(w, d, cw, cd, last, amount) => CanPayByName(db, w, d, cw, cd, last)
  }

  ghost function Apply(db: Db, tx: Tx): Db
    requires CanRun(db, tx)
  {
    match tx
    case OrderTx(w, d, c, requests) => NewOrder(db, w, d, c, requests)
    case DeliveryTx(w, carrier, date) => Deliver(db, w, carrier, date, DISTRICTS)
    case PaymentTx(w, d, customer, amount) => Pay(db, w, d, customer, amount)
    case NameTx(w, d, cw, cd, last, amount) => PayByName(db, w, d, cw, cd, last, amount)
  }

  /** `states[i + 1]` comes from `states[i]` by `txs[i]`. */
  ghost predicate IsRun(states: seq<Db>, txs: seq<Tx>) {
    && |states| == |txs| + 1
    && forall i | 0 <= i < |txs| :: CanRun(states[i], txs[i]) && states[i + 1] == Apply(states[i], txs[i])
  }
}
