/**
 * The value-level rules of the CRM mutation resolvers: the records, the
 * error messages, the per-record outcome of bulk creation, the product
 * guards, the order checks and the order total.
 */
module CrmRules {
  import opened Wrappers
  import opened Digits
  import opened PhoneFormat

  type Id = nat
  type Timestamp = int

  /** The arguments of create-customer and one element of the bulk input. */
  datatype CustomerInput = CustomerInput(name: string, email: string, phone: Option<string>)

  datatype Customer = Customer(id: Id, name: string, email: string, phone: Option<string>)
  datatype Product = Product(id: Id, name: string, price: real, stock: int)
  datatype Order = Order(id: Id, customer: Id, products: set<Id>, total: real, date: Timestamp)

  const EmailExists := "Email already exists"
  const CustomerCreated := "Customer created successfully"
  const PriceNotPositive := "Price must be positive"
  const StockNegative := "Stock cannot be negative"
  const NoProducts := "At least one product is required"
  const BadCustomer := "Invalid customer ID"
  const BadProducts := "One or more product IDs are invalid"

  function InputOf(c: Customer): CustomerInput {
    CustomerInput(c.name, c.email, c.phone)
  }

  /**
   * The failure `Customer.objects.create` raises for row `d` when the
   * emails in `taken` are already stored. `fault` stands for every
   * failure other than the unique-email violation (the model-level
   * constraints of the customer table); it is raised first.
   */
  function InsertError(taken: set<string>, d: CustomerInput, fault: CustomerInput -> Option<string>): Option<string> {
    if fault(d).Some? then fault(d)
    else if d.email in taken then Some(EmailExists)
    else None
  }

  // ---------------------------------------------------------------- bulk

  /** A failed bulk record: its 0-based input position and the reason. */
  datatype RecordError = RecordError(index: nat, reason: string)

  /** The text of a bulk error, `f"Record {idx}: {reason}"`. */
  function ErrorLine(e: RecordError): string {
    "Record " + (DecimalString(e.index) + (": " + e.reason))
  }

  /** An error line determines the record index and the reason it was written from. */
  lemma ErrorLineInjective(e1: RecordError, e2: RecordError)
    requires ErrorLine(e1) == ErrorLine(e2)
    ensures e1 == e2
  {
    var a, b := DecimalString(e1.index), DecimalString(e2.index);
    var t1, t2 := ": " + e1.reason, ": " + e2.reason;
    assert a + t1 == ErrorLine(e1)[|"Record "|..];
    assert b + t2 == ErrorLine(e2)[|"Record "|..];
    DigitsSplit(a, t1, b, t2);
    assert e1.reason == t1[2..] && e2.reason == t2[2..];
  }

  /** The `errors` list of bulk creation, one line per failure. */
  function Render(failures: seq<RecordError>): seq<string> {
    seq(|failures|, k requires 0 <= k < |failures| => ErrorLine(failures[k]))
  }

  /** The error lines determine the failures they were rendered from. */
  lemma RenderInjective(f1: seq<RecordError>, f2: seq<RecordError>)
    requires Render(f1) == Render(f2)
    ensures f1 == f2
  {
    assert |f1| == |Render(f1)| == |Render(f2)| == |f2|;
    forall k | 0 <= k < |f1| ensures f1[k] == f2[k] {
      assert Render(f1)[k] == ErrorLine(f1[k]) && Render(f2)[k] == ErrorLine(f2[k]);
      ErrorLineInjective(f1[k], f2[k]);
    }
  }

  lemma RenderAppend(failures: seq<RecordError>, e: RecordError)
    ensures Render(failures + [e]) == Render(failures) + [ErrorLine(e)]
  {
    assert forall k :: 0 <= k < |failures| ==> (failures + [e])[k] == failures[k];
  }

  /** The emails of a sequence of rows. */
  function EmailsOf(rows: seq<CustomerInput>): set<string>
    decreases |rows|
  {
    if rows == [] then {} else EmailsOf(rows[..|rows| - 1]) + {rows[|rows| - 1].email}
  }

  /** An email is among those of `rows` exactly when some row carries it. */
  lemma {:induction false} EmailsOfMember(rows: seq<CustomerInput>, e: string)
    ensures e in EmailsOf(rows) <==> exists k :: 0 <= k < |rows| && rows[k].email == e
    decreases |rows|
  {
    if rows != [] {
      var n := |rows| - 1;
      EmailsOfMember(rows[..n], e);
      if e in EmailsOf(rows[..n]) {
        var k :| 0 <= k < n && rows[..n][k].email == e;
        assert rows[k].email == e;
      } else if exists k :: 0 <= k < |rows| && rows[k].email == e {
        var k :| 0 <= k < |rows| && rows[k].email == e;
        if k < n { assert rows[..n][k].email == e; }
      }
    }
  }

  /** The records created, the failures logged, and the emails now stored. */
  datatype BulkReport = BulkReport(created: seq<CustomerInput>, failures: seq<RecordError>, taken: set<string>)

  /**
   * One iteration of the bulk loop, for record i in its own transaction:
   * on failure the record is logged and the store is left as it was; on
   * success the record is created and its email is stored.
   */
  function BulkStep(rep: BulkReport, input: seq<CustomerInput>, fault: CustomerInput -> Option<string>, i: nat): BulkReport
    requires i < |input|
  {
    var e := InsertError(rep.taken, input[i], fault);
    if e.None? then BulkReport(rep.created + [input[i]], rep.failures, rep.taken + {input[i].email})
    else BulkReport(rep.created, rep.failures + [RecordError(i, e.value)], rep.taken)
  }

  /** The report once records 0..n-1 of `input` have been processed, starting from the stored emails `taken`. */
  function BulkAfter(taken: set<string>, input: seq<CustomerInput>, fault: CustomerInput -> Option<string>, n: nat): BulkReport
    requires n <= |input|
    decreases n
  {
    if n == 0 then BulkReport([], [], taken)
    else BulkStep(BulkAfter(taken, input, fault, n - 1), input, fault, n - 1)
  }

  /** Every processed record is either created or logged as a failure. */
  lemma {:induction false} BulkCounts(taken: set<string>, input: seq<CustomerInput>, fault: CustomerInput -> Option<string>, n: nat)
    requires n <= |input|
    ensures |BulkAfter(taken, input, fault, n).created| + |BulkAfter(taken, input, fault, n).failures| == n
    decreases n
  {
    if n > 0 {
      BulkCounts(taken, input, fault, n - 1);
    }
  }

  /** The stored emails are the old ones plus those of the created records. */
  lemma {:induction false} BulkTaken(taken: set<string>, input: seq<CustomerInput>, fault: CustomerInput -> Option<string>, n: nat)
    requires n <= |input|
    ensures BulkAfter(taken, input, fault, n).taken == taken + EmailsOf(BulkAfter(taken, input, fault, n).created)
    decreases n
  {
    if n > 0 {
      BulkTaken(taken, input, fault, n - 1);
      var p := BulkAfter(taken, input, fault, n - 1).created;
      var c := BulkAfter(taken, input, fault, n).created;
      if c != p {
        assert c[..|p|] == p;
      }
    }
  }

  /** The report of the whole batch. */
  function BulkRun(taken: set<string>, input: seq<CustomerInput>, fault: CustomerInput -> Option<string>): BulkReport {
    BulkAfter(taken, input, fault, |input|)
  }

  /** The outcome of record i: the error it raises on the store left by records 0..i-1. */
  function BulkOutcome(taken: set<string>, input: seq<CustomerInput>, fault: CustomerInput -> Option<string>, i: nat): Option<string>
    requires i < |input|
  {
    InsertError(BulkAfter(taken, input, fault, i).taken, input[i], fault)
  }

  /** The logged failures name processed positions in strictly increasing order. */
  lemma {:induction false} BulkIndices(taken: set<string>, input: seq<CustomerInput>, fault: CustomerInput -> Option<string>, n: nat)
    requires n <= |input|
    ensures forall k :: 0 <= k < |BulkAfter(taken, input, fault, n).failures| ==>
              BulkAfter(taken, input, fault, n).failures[k].index < n
    ensures forall a, b :: 0 <= a < b < |BulkAfter(taken, input, fault, n).failures| ==>
              BulkAfter(taken, input, fault, n).failures[a].index < BulkAfter(taken, input, fault, n).failures[b].index
    decreases n
  {
    if n > 0 {
      BulkIndices(taken, input, fault, n - 1);
    }
  }

  /** Later records never undo what earlier ones reported. */
  lemma {:induction false} BulkPrefixStable(taken: set<string>, input: seq<CustomerInput>, fault: CustomerInput -> Option<string>, j: nat, n: nat)
    requires j <= n <= |input|
    ensures BulkAfter(taken, input, fault, j).created <= BulkAfter(taken, input, fault, n).created
    ensures BulkAfter(taken, input, fault, j).failures <= BulkAfter(taken, input, fault, n).failures
    ensures BulkAfter(taken, input, fault, j).taken <= BulkAfter(taken, input, fault, n).taken
    decreases n
  {
    if j < n {
      BulkPrefixStable(taken, input, fault, j, n - 1);
    }
  }

  /** Every logged failure records the outcome of the record it names. */
  lemma {:induction false} BulkFailuresAreOutcomes(taken: set<string>, input: seq<CustomerInput>, fault: CustomerInput -> Option<string>, n: nat)
    requires n <= |input|
    ensures forall k :: 0 <= k < |BulkAfter(taken, input, fault, n).failures| ==>
              BulkAfter(taken, input, fault, n).failures[k].index < n &&
              BulkOutcome(taken, input, fault, BulkAfter(taken, input, fault, n).failures[k].index) ==
                Some(BulkAfter(taken, input, fault, n).failures[k].reason)
    decreases n
  {
    if n > 0 {
      BulkFailuresAreOutcomes(taken, input, fault, n - 1);
    }
  }

  /** Record i is logged as failing with reason m exactly when inserting it raises m. */
  lemma BulkRecordFailure(taken: set<string>, input: seq<CustomerInput>, fault: CustomerInput -> Option<string>, i: nat, m: string)
    requires i < |input|
    ensures RecordError(i, m) in BulkRun(taken, input, fault).failures <==> BulkOutcome(taken, input, fault, i) == Some(m)
  {
    var r := BulkRun(taken, input, fault);
    if RecordError(i, m) in r.failures {
      var k :| 0 <= k < |r.failures| && r.failures[k] == RecordError(i, m);
      BulkFailuresAreOutcomes(taken, input, fault, |input|);
    }
    if BulkOutcome(taken, input, fault, i) == Some(m) {
      var before := BulkAfter(taken, input, fault, i);
      var after := BulkAfter(taken, input, fault, i + 1);
      BulkPrefixStable(taken, input, fault, i + 1, |input|);
      assert after.failures[|before.failures|] == r.failures[|before.failures|];
    }
  }

  /** A record whose insert succeeds is created right after the earlier records that were created. */
  lemma BulkRecordCreated(taken: set<string>, input: seq<CustomerInput>, fault: CustomerInput -> Option<string>, i: nat)
    requires i < |input| && BulkOutcome(taken, input, fault, i).None?
    ensures |BulkAfter(taken, input, fault, i).created| < |BulkRun(taken, input, fault).created|
    ensures BulkRun(taken, input, fault).created[|BulkAfter(taken, input, fault, i).created|] == input[i]
  {
    var before := BulkAfter(taken, input, fault, i);
    var after := BulkAfter(taken, input, fault, i + 1);
    BulkPrefixStable(taken, input, fault, i + 1, |input|);
    assert after.created[|before.created|] == input[i];
  }

  /**
   * Conversely, every created record is a record whose insert succeeded:
   * the k-th created row is some input i, created right after the k
   * records before it.
   */
  lemma {:induction false} BulkCreatedIsSuccess(taken: set<string>, input: seq<CustomerInput>, fault: CustomerInput -> Option<string>, n: nat, k: nat)
    requires n <= |input| && k < |BulkAfter(taken, input, fault, n).created|
    ensures exists i :: 0 <= i < n && BulkOutcome(taken, input, fault, i).None? &&
                        |BulkAfter(taken, input, fault, i).created| == k &&
                        BulkAfter(taken, input, fault, n).created[k] == input[i]
    decreases n
  {
    var p := BulkAfter(taken, input, fault, n - 1);
    var c := BulkAfter(taken, input, fault, n).created;
    if k < |p.created| {
      BulkCreatedIsSuccess(taken, input, fault, n - 1, k);
      var i :| 0 <= i < n - 1 && BulkOutcome(taken, input, fault, i).None? &&
               |BulkAfter(taken, input, fault, i).created| == k &&
               p.created[k] == input[i];
      assert c[k] == p.created[k];
    } else {
      assert BulkOutcome(taken, input, fault, n - 1).None? && c[k] == input[n - 1];
    }
  }

  /**
   * With no other failure, record i is rejected as a duplicate exactly
   * when its email was stored before the batch or belongs to a record the
   * same batch created before it.
   */
  lemma BulkDuplicate(taken: set<string>, input: seq<CustomerInput>, fault: CustomerInput -> Option<string>, i: nat)
    requires i < |input| && fault(input[i]).None?
    ensures RecordError(i, EmailExists) in BulkRun(taken, input, fault).failures <==>
            input[i].email in taken ||
            exists k :: 0 <= k < |BulkAfter(taken, input, fault, i).created| &&
                        BulkAfter(taken, input, fault, i).created[k].email == input[i].email
  {
    var before := BulkAfter(taken, input, fault, i);
    BulkRecordFailure(taken, input, fault, i, EmailExists);
    assert BulkOutcome(taken, input, fault, i) == InsertError(before.taken, input[i], fault);
    assert InsertError(before.taken, input[i], fault) == Some(EmailExists) <==> input[i].email in before.taken;
    BulkTaken(taken, input, fault, i);
    EmailsOfMember(before.created, input[i].email);
  }

  /** Bulk creation never stores an email twice. */
  lemma {:induction false} BulkEmailsFresh(taken: set<string>, input: seq<CustomerInput>, fault: CustomerInput -> Option<string>, n: nat)
    requires n <= |input|
    ensures forall k :: 0 <= k < |BulkAfter(taken, input, fault, n).created| ==>
              BulkAfter(taken, input, fault, n).created[k].email !in taken
    ensures forall a, b :: 0 <= a < b < |BulkAfter(taken, input, fault, n).created| ==>
              BulkAfter(taken, input, fault, n).created[a].email != BulkAfter(taken, input, fault, n).created[b].email
    decreases n
  {
    if n > 0 {
      var p := BulkAfter(taken, input, fault, n - 1);
      BulkEmailsFresh(taken, input, fault, n - 1);
      BulkTaken(taken, input, fault, n - 1);
      var c := BulkAfter(taken, input, fault, n).created;
      if c != p.created {
        assert c == p.created + [input[n - 1]];
        forall k | 0 <= k < |p.created| ensures p.created[k].email != input[n - 1].email {
          EmailsOfMember(p.created, p.created[k].email);
        }
      }
    }
  }

  /** No failure besides the unique-email violation. */
  function NoFault(d: CustomerInput): Option<string> {
    None
  }

  /**
   * Three records where the second repeats the first one's email: two are
   * created and the one error line names record 1.
   */
  lemma BulkExample()
    ensures var input := [CustomerInput("Ann", "ann@example.com", None),
                          CustomerInput("Bob", "ann@example.com", None),
                          CustomerInput("Cy", "cy@example.com", Some("123-456-7890"))];
            var r := BulkRun({}, input, NoFault);
            r.created == [input[0], input[2]] &&
            Render(r.failures) == ["Record 1: " + EmailExists]
  {
    var input := [CustomerInput("Ann", "ann@example.com", None),
                  CustomerInput("Bob", "ann@example.com", None),
                  CustomerInput("Cy", "cy@example.com", Some("123-456-7890"))];
    var ann, cy := "ann@example.com", "cy@example.com";
    assert ann != cy;
    var r0 := BulkAfter({}, input, NoFault, 0);
    assert r0 == BulkReport([], [], {});
    assert InsertError({}, input[0], NoFault) == None;
    var r1 := BulkAfter({}, input, NoFault, 1);
    assert r1 == BulkStep(r0, input, NoFault, 0);
    assert r1 == BulkReport([input[0]], [], {ann});
    assert InsertError({ann}, input[1], NoFault) == Some(EmailExists);
    var r2 := BulkAfter({}, input, NoFault, 2);
    assert r2 == BulkStep(r1, input, NoFault, 1);
    assert r2 == BulkReport([input[0]], [RecordError(1, EmailExists)], {ann});
    assert InsertError({ann}, input[2], NoFault) == None;
    var r3 := BulkAfter({}, input, NoFault, 3);
    assert r3 == BulkStep(r2, input, NoFault, 2);
    assert r3.created == [input[0], input[2]];
    assert r3.failures == [RecordError(1, EmailExists)];
    RenderExample(EmailExists);
  }

  /** The error line of a duplicate second record. */
  lemma RenderExample(m: string)
    ensures Render([RecordError(1, m)]) == ["Record 1: " + m]
  {
    assert DecimalString(1) == "1";
    assert "Record " + ("1" + (": " + m)) == "Record 1: " + m;
  }

  /**
   * Bulk creation applies no phone check: a record of any batch whose phone
   * the single-customer path rejects is still created when its insert
   * succeeds.
   */
  lemma BulkSkipsPhoneCheck(taken: set<string>, input: seq<CustomerInput>, fault: CustomerInput -> Option<string>, i: nat)
    requires i < |input| && PhoneError(input[i].phone).Some?
    requires fault(input[i]).None? && input[i].email !in BulkAfter(taken, input, fault, i).taken
    ensures input[i] in BulkRun(taken, input, fault).created
  {
    BulkRecordCreated(taken, input, fault, i);
    var created := BulkRun(taken, input, fault).created;
    assert created[|BulkAfter(taken, input, fault, i).created|] == input[i];
  }

  /** The phone "abc" is rejected by create-customer but stored by bulk creation. */
  lemma BulkSkipsPhoneCheckExample()
    ensures var d := CustomerInput("Ann", "ann@example.com", Some("abc"));
            PhoneError(d.phone) == Some(InvalidPhone) &&
            d in BulkRun({}, [d], NoFault).created
  {
    var d := CustomerInput("Ann", "ann@example.com", Some("abc"));
    assert !PhoneMatches("abc") by { PhoneExamples(); }
    assert BulkAfter({}, [d], NoFault, 0).taken == {};
    BulkSkipsPhoneCheck({}, [d], NoFault, 0);
  }

  // ------------------------------------------------------------- product

  /** `stock=0` as the resolver's default. */
  function StockOrDefault(stock: Option<int>): int {
    if stock.Some? then stock.value else 0
  }

  /** The two guards of create-product, price first. */
  function ProductError(price: real, stock: int): Option<string> {
    if price <= 0.0 then Some(PriceNotPositive)
    else if stock < 0 then Some(StockNegative)
    else None
  }

  // --------------------------------------------------------------- order

  function SetOf(ids: seq<Id>): set<Id> {
    set x | x in ids
  }

  predicate Distinct(ids: seq<Id>) {
    forall a, b :: 0 <= a < b < |ids| ==> ids[a] != ids[b]
  }

  /** `Product.objects.filter(id__in=ids).count()`: the distinct stored ids requested. */
  function ResolvedCount(stored: set<Id>, ids: seq<Id>): nat {
    |SetOf(ids) * stored|
  }

  lemma {:induction false} SetOfSize(ids: seq<Id>)
    ensures |SetOf(ids)| <= |ids|
    ensures |SetOf(ids)| == |ids| <==> Distinct(ids)
  {
    if ids != [] {
      var rest := ids[1..];
      SetOfSize(rest);
      assert SetOf(ids) == {ids[0]} + SetOf(rest);
      if ids[0] in rest {
        assert SetOf(ids) == SetOf(rest);
        var b :| 0 <= b < |rest| && rest[b] == ids[0];
        assert ids[b + 1] == ids[0];
      } else {
        assert Distinct(ids) <==> Distinct(rest) by {
          if Distinct(rest) {
            forall a, b | 0 <= a < b < |ids| ensures ids[a] != ids[b] {
              if a == 0 { assert ids[b] == rest[b - 1]; }
              else { assert ids[a] == rest[a - 1] && ids[b] == rest[b - 1]; }
            }
          }
          if Distinct(ids) {
            forall a, b | 0 <= a < b < |rest| ensures rest[a] != rest[b] {
              assert rest[a] == ids[a + 1] && rest[b] == ids[b + 1];
            }
          }
        }
      }
    }
  }

  /**
   * The count check `count() != len(product_ids)` passes exactly when the
   * requested ids are pairwise distinct and all stored.
   */
  lemma CountCheck(stored: set<Id>, ids: seq<Id>)
    ensures ResolvedCount(stored, ids) == |ids| <==> Distinct(ids) && SetOf(ids) <= stored
  {
    var s := SetOf(ids);
    SetOfSize(ids);
    assert |s| == |s * stored| + |s - stored| by {
      assert s == (s * stored) + (s - stored);
      assert (s * stored) * (s - stored) == {};
    }
    if !(s <= stored) {
      var x :| x in s && x !in stored;
      assert x in s - stored;
    }
  }

  /** The checks of create-order, in the order the resolver makes them. */
  function OrderError(customers: set<Id>, stored: set<Id>, customer: Id, ids: seq<Id>): (e: Option<string>)
    ensures e.None? <==> ids != [] && customer in customers && Distinct(ids) && SetOf(ids) <= stored
    ensures ids == [] ==> e == Some(NoProducts)
    ensures ids != [] && customer !in customers ==> e == Some(BadCustomer)
    ensures ids != [] && customer in customers && !(Distinct(ids) && SetOf(ids) <= stored) ==> e == Some(BadProducts)
  {
    CountCheck(stored, ids);
    if ids == [] then Some(NoProducts)
    else if customer !in customers then Some(BadCustomer)
    else if ResolvedCount(stored, ids) != |ids| then Some(BadProducts)
    else None
  }

  predicate AllStored(products: map<Id, Product>, ids: seq<Id>) {
    forall k :: 0 <= k < |ids| ==> ids[k] in products
  }

  /** `sum([p.price for p in products], Decimal("0.00"))`, summed left to right. */
  function PriceSum(products: map<Id, Product>, ids: seq<Id>): real
    requires AllStored(products, ids)
    decreases |ids|
  {
    if ids == [] then 0.0
    else PriceSum(products, ids[..|ids| - 1]) + products[ids[|ids| - 1]].price
  }

  /** The sum of the prices of a set of stored products, in no particular order. */
  ghost function SetPriceSum(products: map<Id, Product>, s: set<Id>): real
    requires s <= products.Keys
    decreases |s|
  {
    if s == {} then 0.0
    else
      var x :| x in s;
      products[x].price + SetPriceSum(products, s - {x})
  }

  /** Any member can be taken out of a set sum first. */
  lemma {:induction false} SetPriceSumRemove(products: map<Id, Product>, s: set<Id>, y: Id)
    requires s <= products.Keys && y in s
    ensures SetPriceSum(products, s) == products[y].price + SetPriceSum(products, s - {y})
    decreases |s|
  {
    var x :| x in s && SetPriceSum(products, s) == products[x].price + SetPriceSum(products, s - {x});
    if x != y {
      SetPriceSumRemove(products, s - {x}, y);
      SetPriceSumRemove(products, s - {y}, x);
      assert s - {x} - {y} == s - {y} - {x};
    }
  }

  /** A set sum depends only on the prices of the products in the set. */
  lemma {:induction false} SetPriceSumFrame(products: map<Id, Product>, products': map<Id, Product>, s: set<Id>)
    requires s <= products.Keys && s <= products'.Keys
    requires forall x :: x in s ==> products'[x].price == products[x].price
    ensures SetPriceSum(products', s) == SetPriceSum(products, s)
    decreases |s|
  {
    if s != {} {
      var y :| y in s;
      SetPriceSumRemove(products, s, y);
      SetPriceSumRemove(products', s, y);
      SetPriceSumFrame(products, products', s - {y});
    }
  }

  /**
   * Over pairwise distinct ids the resolver's left-to-right total is the
   * sum of the prices of the product set the order is linked to.
   */
  lemma {:induction false} PriceSumIsSetSum(products: map<Id, Product>, ids: seq<Id>)
    requires AllStored(products, ids) && Distinct(ids)
    ensures SetOf(ids) <= products.Keys
    ensures PriceSum(products, ids) == SetPriceSum(products, SetOf(ids))
    decreases |ids|
  {
    if ids != [] {
      var n := |ids| - 1;
      var init := ids[..n];
      assert AllStored(products, init);
      assert Distinct(init);
      PriceSumIsSetSum(products, init);
      assert SetOf(ids) == SetOf(init) + {ids[n]};
      assert ids[n] !in SetOf(init);
      SetPriceSumRemove(products, SetOf(ids), ids[n]);
      assert SetOf(ids) - {ids[n]} == SetOf(init);
    }
  }

  /** A non-empty order of positively priced products has a positive total. */
  lemma {:induction false} PriceSumPositive(products: map<Id, Product>, ids: seq<Id>)
    requires AllStored(products, ids) && ids != []
    requires forall k :: 0 <= k < |ids| ==> products[ids[k]].price > 0.0
    ensures PriceSum(products, ids) > 0.0
    decreases |ids|
  {
    var n := |ids| - 1;
    if n > 0 {
      PriceSumPositive(products, ids[..n]);
    }
  }
}
