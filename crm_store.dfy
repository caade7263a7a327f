/**
 * The store the four mutation resolvers write to: the customer, product
 * and order tables, each keyed by an auto-allocated id, with one method
 * per resolver.
 */
module CrmStore {
  import opened Wrappers
  import opened PhoneFormat
  import opened CrmRules

  /**
   * The customer table `after` is `before` with exactly the rows `rows`
   * added, under fresh ids handed out in increasing order.
   */
  ghost predicate GrewBy(before: map<Id, Customer>, after: map<Id, Customer>, rows: seq<Customer>) {
    (forall k :: k in before ==> k in after && after[k] == before[k]) &&
    (forall j :: 0 <= j < |rows| ==> rows[j].id !in before && rows[j].id in after && after[rows[j].id] == rows[j]) &&
    after.Keys == before.Keys + IdsOf(rows) &&
    (forall a, b :: 0 <= a < b < |rows| ==> rows[a].id < rows[b].id)
  }

  /** The input records some customer rows were created from. */
  function InputsOf(rows: seq<Customer>): seq<CustomerInput> {
    seq(|rows|, k requires 0 <= k < |rows| => InputOf(rows[k]))
  }

  lemma InputsOfAppend(rows: seq<Customer>, c: Customer)
    ensures InputsOf(rows + [c]) == InputsOf(rows) + [InputOf(c)]
  {
    assert forall k :: 0 <= k < |rows| ==> (rows + [c])[k] == rows[k];
  }

  /** The ids of some customer rows. */
  function IdsOf(rows: seq<Customer>): set<Id> {
    set r | r in rows :: r.id
  }

  lemma IdsOfAppend(rows: seq<Customer>, c: Customer)
    ensures IdsOf(rows + [c]) == IdsOf(rows) + {c.id}
  {
    assert forall r :: r in rows + [c] <==> r in rows || r == c;
  }

  /** Adding one row under an id above every stored one extends the growth by that row. */
  lemma GrewByStep(before: map<Id, Customer>, mid: map<Id, Customer>, rows: seq<Customer>, c: Customer)
    requires GrewBy(before, mid, rows)
    requires forall k :: k in mid ==> k < c.id
    ensures GrewBy(before, mid[c.id := c], rows + [c])
  {
    var after := mid[c.id := c];
    var rows' := rows + [c];
    assert c.id !in before && c.id !in mid;
    assert forall k :: k in before ==> k in after && after[k] == before[k];
    forall j | 0 <= j < |rows'|
      ensures rows'[j].id !in before && rows'[j].id in after && after[rows'[j].id] == rows'[j]
    {
      if j < |rows| {
        assert rows'[j] == rows[j];
        assert rows[j].id in mid;
      }
    }
    assert after.Keys == mid.Keys + {c.id};
    IdsOfAppend(rows, c);
    forall a, b | 0 <= a < b < |rows'| ensures rows'[a].id < rows'[b].id {
      assert rows'[a] == rows[a];
      if b < |rows| {
        assert rows'[b] == rows[b];
      } else {
        assert rows[a].id in mid;
      }
    }
  }

  /** What create-customer returns: the new row and a confirmation. */
  datatype CustomerCreation = CustomerCreation(customer: Customer, message: string)

  class Store {
    var customers: map<Id, Customer>
    var products: map<Id, Product>
    var orders: map<Id, Order>
    // the next primary key each table hands out
    var nextCustomerId: Id
    var nextProductId: Id
    var nextOrderId: Id

    /**
     * The table constraints: ids are keys below the next one handed out,
     * emails are unique, prices positive and stock non-negative, and every
     * order has a stored customer, at least one stored product and a total
     * equal to the sum of its products' prices.
     */
    ghost predicate Valid()
      reads this
    {
      (forall k :: k in customers ==> customers[k].id == k && k < nextCustomerId) &&
      (forall a, b :: a in customers && b in customers && customers[a].email == customers[b].email ==> a == b) &&
      (forall k :: k in products ==> ProductOk(products[k], k)) &&
      (forall k :: k in orders ==> OrderOk(orders[k], k))
    }

    ghost predicate ProductOk(p: Product, k: Id)
      reads this
    {
      p.id == k && k < nextProductId && p.price > 0.0 && p.stock >= 0
    }

    ghost predicate OrderOk(o: Order, k: Id)
      reads this
    {
      o.id == k && k < nextOrderId && o.customer in customers &&
      o.products != {} && o.products <= products.Keys &&
      o.total == SetPriceSum(products, o.products)
    }

    /** The emails in the customer table. */
    function Emails(): set<string>
      reads this
    {
      set k | k in customers :: customers[k].email
    }

    constructor ()
      ensures Valid()
      ensures customers == map[] && products == map[] && orders == map[]
    {
      customers, products, orders := map[], map[], map[];
      nextCustomerId, nextProductId, nextOrderId := 1, 1, 1;
    }

    /** `Customer.objects.create` for a row whose email is not yet stored. */
    method InsertCustomer(d: CustomerInput) returns (c: Customer)
      requires Valid() && d.email !in Emails()
      modifies this`customers, this`nextCustomerId
      ensures Valid()
      ensures InputOf(c) == d && c.id !in old(customers)
      ensures forall k :: k in old(customers) ==> k < c.id
      ensures customers == old(customers)[c.id := c]
      ensures Emails() == old(Emails()) + {d.email}
    {
      c := Customer(nextCustomerId, d.name, d.email, d.phone);
      ghost var before := Emails();
      customers := customers[c.id := c];
      nextCustomerId := nextCustomerId + 1;
      assert d.email in Emails() by { assert customers[c.id].email == d.email; }
      forall e | e in before ensures e in Emails() {
        var k :| k in old(customers) && old(customers)[k].email == e;
        assert customers[k].email == e;
      }
    }

    /**
     * createCustomer(name, email, phone): the phone check, then the
     * insert, which fails on any other constraint first and then on a
     * duplicate email.
     */
    method CreateCustomer(name: string, email: string, phone: Option<string>, fault: CustomerInput -> Option<string>)
      returns (r: Result<CustomerCreation>)
      requires Valid()
      modifies this`customers, this`nextCustomerId
      ensures Valid()
      ensures PhoneError(phone).Some? ==> r == Err(InvalidPhone)
      ensures PhoneError(phone).None? && fault(CustomerInput(name, email, phone)).Some? ==>
                r == Err(fault(CustomerInput(name, email, phone)).value)
      ensures PhoneError(phone).None? && fault(CustomerInput(name, email, phone)).None? && email in old(Emails()) ==>
                r == Err(EmailExists)
      ensures r.Ok? <==> PhoneError(phone).None? && fault(CustomerInput(name, email, phone)).None? && email !in old(Emails())
      ensures r.Err? ==> customers == old(customers)
      ensures r.Ok? ==> r.value.message == CustomerCreated &&
                        InputOf(r.value.customer) == CustomerInput(name, email, phone) &&
                        r.value.customer.id !in old(customers) &&
                        customers == old(customers)[r.value.customer.id := r.value.customer]
    {
      var perr := PhoneError(phone);
      if perr.Some? {
        return Err(perr.value);
      }
      var d := CustomerInput(name, email, phone);
      var e := InsertError(Emails(), d, fault);
      if e.Some? {
        return Err(e.value);
      }
      var c := InsertCustomer(d);
      r := Ok(CustomerCreation(c, CustomerCreated));
    }

    /**
     * bulkCreateCustomers(input): every record in its own transaction, in
     * input order, with no phone check; the result is what BulkRun
     * describes, and the table gains exactly the created rows.
     */
    method BulkCreateCustomers(input: seq<CustomerInput>, fault: CustomerInput -> Option<string>)
      returns (created: seq<Customer>, errors: seq<string>)
      requires Valid()
      modifies this`customers, this`nextCustomerId
      ensures Valid()
      ensures |created| + |errors| == |input|
      ensures InputsOf(created) == BulkRun(old(Emails()), input, fault).created
      ensures errors == Render(BulkRun(old(Emails()), input, fault).failures)
      ensures Emails() == BulkRun(old(Emails()), input, fault).taken
      ensures GrewBy(old(customers), customers, created)
    {
      ghost var taken := Emails();
      ghost var rep := BulkAfter(taken, input, fault, 0);
      created, errors := [], [];
      var i := 0;
      while i < |input|
        invariant 0 <= i <= |input|
        invariant Valid()
        invariant rep == BulkAfter(taken, input, fault, i)
        invariant InputsOf(created) == rep.created
        invariant errors == Render(rep.failures)
        invariant Emails() == rep.taken
        invariant GrewBy(old(customers), customers, created)
      {
        ghost var next := BulkStep(rep, input, fault, i);
        label step:
        assert next == BulkAfter(taken, input, fault, i + 1);
        var c := CreateRecord(input[i], fault);
        if c.Ok? {
          assert next.created == rep.created + [input[i]] && next.failures == rep.failures;
          GrewByStep(old(customers), old@step(customers), created, c.value);
          InputsOfAppend(created, c.value);
          created := created + [c.value];
        } else {
          assert next.created == rep.created && next.failures == rep.failures + [RecordError(i, c.msg)];
          var line := ErrorLine(RecordError(i, c.msg));
          RenderAppend(rep.failures, RecordError(i, c.msg));
          errors := errors + [line];
        }
        rep := BulkStep(rep, input, fault, i);
        i := i + 1;
      }
      BulkCounts(taken, input, fault, |input|);
    }

    /** One iteration of the bulk loop: the insert of one record in its own transaction. */
    method CreateRecord(d: CustomerInput, fault: CustomerInput -> Option<string>) returns (c: Result<Customer>)
      requires Valid()
      modifies this`customers, this`nextCustomerId
      ensures Valid()
      ensures c.Err? <==> InsertError(old(Emails()), d, fault).Some?
      ensures c.Err? ==> c.msg == InsertError(old(Emails()), d, fault).value && customers == old(customers)
      ensures c.Ok? ==> InputOf(c.value) == d && c.value.id !in old(customers) &&
                        customers == old(customers)[c.value.id := c.value] &&
                        Emails() == old(Emails()) + {d.email}
      ensures c.Ok? ==> forall k :: k in old(customers) ==> k < c.value.id
    {
      var e := InsertError(Emails(), d, fault);
      if e.Some? {
        return Err(e.value);
      }
      var row := InsertCustomer(d);
      c := Ok(row);
    }

    /** createProduct(name, price, stock): price first, then stock, then the insert. */
    method CreateProduct(name: string, price: real, stock: Option<int>) returns (r: Result<Product>)
      requires Valid()
      modifies this`products, this`nextProductId
      ensures Valid()
      ensures price <= 0.0 ==> r == Err(PriceNotPositive)
      ensures price > 0.0 && StockOrDefault(stock) < 0 ==> r == Err(StockNegative)
      ensures r.Ok? <==> price > 0.0 && StockOrDefault(stock) >= 0
      ensures r.Err? ==> products == old(products)
      ensures r.Ok? ==> r.value.name == name && r.value.price == price && r.value.stock == StockOrDefault(stock) &&
                        r.value.id !in old(products) && products == old(products)[r.value.id := r.value]
    {
      var s := StockOrDefault(stock);
      var e := ProductError(price, s);
      if e.Some? {
        return Err(e.value);
      }
      var p := Product(nextProductId, name, price, s);
      ghost var before := products;
      products := products[p.id := p];
      nextProductId := nextProductId + 1;
      forall k | k in orders ensures OrderOk(orders[k], k) {
        SetPriceSumFrame(before, products, orders[k].products);
      }
      r := Ok(p);
    }

    /**
     * createOrder(customerId, productIds, orderDate): the three checks in
     * order, then an order for the customer, linked to the requested
     * products, whose total is the sum of their prices.
     */
    method CreateOrder(customerId: Id, productIds: seq<Id>, orderDate: Option<Timestamp>, now: Timestamp)
      returns (r: Result<Order>)
      requires Valid()
      modifies this`orders, this`nextOrderId
      ensures Valid()
      ensures productIds == [] ==> r == Err(NoProducts)
      ensures productIds != [] && customerId !in customers ==> r == Err(BadCustomer)
      ensures productIds != [] && customerId in customers && !(Distinct(productIds) && SetOf(productIds) <= products.Keys) ==>
                r == Err(BadProducts)
      ensures r.Ok? <==> productIds != [] && customerId in customers && Distinct(productIds) && SetOf(productIds) <= products.Keys
      ensures r.Err? ==> orders == old(orders)
      ensures r.Ok? ==> AllStored(products, productIds) &&
                        r.value.customer == customerId &&
                        r.value.products == SetOf(productIds) &&
                        r.value.total == PriceSum(products, productIds) &&
                        r.value.total > 0.0 &&
                        (orderDate.Some? ==> r.value.date == orderDate.value) &&
                        (orderDate.None? ==> r.value.date == now) &&
                        r.value.id !in old(orders) &&
                        orders == old(orders)[r.value.id := r.value]
    {
      var e := OrderError(customers.Keys, products.Keys, customerId, productIds);
      if e.Some? {
        return Err(e.value);
      }
      assert AllStored(products, productIds) by {
        forall k | 0 <= k < |productIds| ensures productIds[k] in products {
          assert productIds[k] in SetOf(productIds);
        }
      }
      var total := PriceSum(products, productIds);
      PriceSumIsSetSum(products, productIds);
      PriceSumPositive(products, productIds);
      // `order_date or timezone.now()`
      var date := if orderDate.Some? then orderDate.value else now;
      var o := Order(nextOrderId, customerId, SetOf(productIds), total, date);
      orders := orders[o.id := o];
      nextOrderId := nextOrderId + 1;
      r := Ok(o);
    }
  }

  /** A customer with a valid international phone is created; a second one with the same email is refused. */
  method CustomerScenario() {
    var store := new Store();
    PhoneExamples();
    var ann := store.CreateCustomer("Ann", "ann@example.com", Some("+12345678901"), NoFault);
    assert ann.Ok?;
    var id := ann.value.customer.id;
    assert store.customers[id].email == "ann@example.com";
    assert "ann@example.com" in store.Emails();
    var again := store.CreateCustomer("Ann B", "ann@example.com", None, NoFault);
    assert again == Err(EmailExists);
  }

  /** Prices 10.00 and 5.50 make an order of 15.50. */
  method OrderScenario() {
    var store := new Store();
    var ann := store.CreateCustomer("Ann", "ann@example.com", None, NoFault);
    assert ann.Ok?;
    var cid := ann.value.customer.id;
    var pen := store.CreateProduct("Pen", 10.00, Some(5));
    assert pen.Ok?;
    var pad := store.CreateProduct("Pad", 5.50, None);
    assert pad.Ok?;
    var p1, p2 := pen.value.id, pad.value.id;
    assert p1 != p2 && p1 in store.products && p2 in store.products;
    assert store.products[p1].price == 10.00 && store.products[p2].price == 5.50;
    assert Distinct([p1, p2]) && SetOf([p1, p2]) <= store.products.Keys;
    var order := store.CreateOrder(cid, [p1, p2], None, 0);
    assert order.Ok?;
    assert [p1, p2][..1] == [p1] && [p1][..0] == [];
    assert PriceSum(store.products, [p1]) == 10.00;
    assert PriceSum(store.products, [p1, p2]) == 15.50;
    assert order.value.total == 15.50;
  }

  /** An order naming one stored product twice fails the count check. */
  method RepeatedProductScenario() {
    var store := new Store();
    var ann := store.CreateCustomer("Ann", "ann@example.com", None, NoFault);
    assert ann.Ok?;
    var pen := store.CreateProduct("Pen", 10.00, None);
    assert pen.Ok?;
    var p := pen.value.id;
    assert !Distinct([p, p]) by { assert [p, p][0] == [p, p][1]; }
    var bad := store.CreateOrder(ann.value.customer.id, [p, p], None, 0);
    assert bad == Err(BadProducts);
  }
}
