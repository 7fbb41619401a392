/**
 * The customer, product and order mutations of the CRM API (crm/schema.py),
 * over an in-memory store in place of the ORM. Each mutation is stated as a
 * function from the store's contents before to the contents after and the
 * result (a returned value, or Err with the text of the raised exception);
 * class Store runs the same rules step by step on its own fields.
 */
module Crm {
  import opened Results
  import opened Text
  import Phone
  import Clock

  datatype Customer = Customer(id: nat, name: string, email: string, phone: Option<string>)

  /** price is an exact Decimal. */
  datatype Product = Product(id: nat, name: string, price: real, stock: int)

  /** productIds is the many-to-many relation products.set() stores; orderDate None leaves the model's default. */
  datatype Order = Order(id: nat, customerId: nat, productIds: set<nat>, totalAmount: real,
                         orderDate: Option<Clock.DateTime>)

  /** The rows of the three tables, in insertion order; ids are assigned 1, 2, 3, ... */
  datatype Db = Db(customers: seq<Customer>, products: seq<Product>, orders: seq<Order>)

  datatype CustomerInput = CustomerInput(name: string, email: string, phone: Option<string>)
  datatype ProductInput = ProductInput(name: string, price: real, stock: Option<int>)
  datatype OrderInput = OrderInput(customerId: nat, productIds: seq<nat>, orderDate: Option<Clock.DateTime>)

  /** Django's EmailValidator: the addresses it accepts, and str() of the ValidationError it raises otherwise. */
  datatype EmailValidator = EmailValidator(accepts: string -> bool, errorText: string)

  /** The store after a mutation, and what the mutation returned or raised. */
  datatype Outcome<T> = Outcome(db: Db, result: Result<T, string>)

  const InvalidEmail := "Invalid email format"
  const EmailExists := "Email already exists"
  const InvalidPhone := "Invalid phone format. Use formats like +1234567890 or 123-456-7890"
  const CustomerCreated := "Customer created successfully"
  const PriceNotPositive := "Price must be positive"
  const NegativeStock := "Stock cannot be negative"
  const NoProducts := "At least one product must be selected"

  function UnknownCustomer(id: nat): string {
    "Customer with ID " + NatToString(id) + " does not exist"
  }

  function UnknownProduct(id: nat): string {
    "Product with ID " + NatToString(id) + " does not exist"
  }

  // ---------------------------------------------------------------- queries

  /** Customer.objects.filter(email=email).exists() */
  predicate EmailTaken(cs: seq<Customer>, email: string) {
    exists i :: 0 <= i < |cs| && cs[i].email == email
  }

  /** Model.objects.get(id=id) on a table whose rows carry their id as idOf gives it; None for DoesNotExist. */
  function FindById<T>(rows: seq<T>, idOf: T -> nat, id: nat): (r: Option<T>)
    ensures r.Some? ==> r.value in rows && idOf(r.value) == id
    ensures r.None? <==> forall i :: 0 <= i < |rows| ==> idOf(rows[i]) != id
  {
    if rows == [] then None
    else if idOf(rows[0]) == id then Some(rows[0])
    else
      var r := FindById(rows[1..], idOf, id);
      assert forall i :: 1 <= i < |rows| ==> rows[1..][i - 1] == rows[i];
      r
  }

  /** Customer.objects.get(id=id) */
  function CustomerById(cs: seq<Customer>, id: nat): Option<Customer> {
    FindById(cs, (c: Customer) => c.id, id)
  }

  /** Product.objects.get(id=id) */
  function ProductById(ps: seq<Product>, id: nat): Option<Product> {
    FindById(ps, (p: Product) => p.id, id)
  }

  /** `if input.phone:` -- a phone that is absent or empty counts as not given. */
  predicate PhoneGiven(phone: Option<string>) {
    phone.Some? && phone.value != ""
  }

  /** The row save() inserts for a customer input: the next id, and None for a phone not given. */
  function NewCustomer(db: Db, input: CustomerInput): Customer {
    Customer(|db.customers| + 1, input.name, input.email, if PhoneGiven(input.phone) then input.phone else None)
  }

  // -------------------------------------------------------------- invariant

  predicate OrderValid(db: Db, o: Order, i: nat) {
    && o.id == i + 1
    && 1 <= o.customerId <= |db.customers|
    && o.productIds != {}
    && (forall p :: p in o.productIds ==> 1 <= p <= |db.products|)
    && o.totalAmount > 0.0
  }

  /**
   * What the mutations keep true of the store: ids follow insertion order,
   * no two customers share an email, a stored phone matches the pattern,
   * every price is positive and every stock non-negative, and every order
   * names an existing customer and at least one existing product and has a
   * positive total.
   */
  ghost predicate Valid(db: Db) {
    && (forall i :: 0 <= i < |db.customers| ==> db.customers[i].id == i + 1)
    && (forall i, j :: 0 <= i < j < |db.customers| ==> db.customers[i].email != db.customers[j].email)
    && (forall i :: 0 <= i < |db.customers| && db.customers[i].phone.Some? ==>
          db.customers[i].phone.value != "" && Phone.PhoneMatches(db.customers[i].phone.value))
    && (forall i :: 0 <= i < |db.products| ==>
          db.products[i].id == i + 1 && db.products[i].price > 0.0 && db.products[i].stock >= 0)
    && (forall i :: 0 <= i < |db.orders| ==> OrderValid(db, db.orders[i], i))
  }

  lemma ProductByIdInValid(db: Db, id: nat)
    requires Valid(db)
    ensures ProductById(db.products, id).Some? <==> 1 <= id <= |db.products|
    ensures ProductById(db.products, id).Some? ==> ProductById(db.products, id).value.price > 0.0
  {
    if 1 <= id <= |db.products| {
      assert db.products[id - 1].id == id;
    }
  }

  lemma CustomerByIdInValid(db: Db, id: nat)
    requires Valid(db)
    ensures CustomerById(db.customers, id).Some? <==> 1 <= id <= |db.customers|
  {
    if 1 <= id <= |db.customers| {
      assert db.customers[id - 1].id == id;
    }
  }

  // -------------------------------------------------------- CreateCustomer

  /**
   * CreateCustomer.mutate: the email format, then a duplicate email, then the
   * phone format (only when one is given); the first failing check raises and
   * nothing is saved; otherwise exactly one customer is added.
   */
  function CreateCustomerStep(db: Db, v: EmailValidator, input: CustomerInput): (r: Outcome<(Customer, string)>)
    ensures r.result.Err? <==>
      !v.accepts(input.email) || EmailTaken(db.customers, input.email) ||
      (PhoneGiven(input.phone) && !Phone.PhoneMatches(input.phone.value))
    ensures !v.accepts(input.email) ==> r.result == Err(InvalidEmail)
    ensures v.accepts(input.email) && EmailTaken(db.customers, input.email) ==> r.result == Err(EmailExists)
    ensures (v.accepts(input.email) && !EmailTaken(db.customers, input.email) &&
             PhoneGiven(input.phone) && !Phone.PhoneMatches(input.phone.value)) ==> r.result == Err(InvalidPhone)
    ensures r.result.Err? ==> r.db == db
    ensures r.result.Ok? ==>
      var c := r.result.value.0;
      && r.result.value.1 == CustomerCreated
      && r.db == db.(customers := db.customers + [c])
      && c.name == input.name && c.email == input.email && c.id == |db.customers| + 1
      && c.phone == (if input.phone == Some("") then None else input.phone)
  {
    if !v.accepts(input.email) then Outcome(db, Err(InvalidEmail))
    else if EmailTaken(db.customers, input.email) then Outcome(db, Err(EmailExists))
    else if PhoneGiven(input.phone) && !Phone.PhoneMatches(input.phone.value) then Outcome(db, Err(InvalidPhone))
    else
      var c := NewCustomer(db, input);
      Outcome(db.(customers := db.customers + [c]), Ok((c, CustomerCreated)))
  }

  lemma AddCustomerPreservesValid(db: Db, v: EmailValidator, input: CustomerInput)
    requires Valid(db)
    requires v.accepts(input.email) && !EmailTaken(db.customers, input.email)
    requires !(PhoneGiven(input.phone) && !Phone.PhoneMatches(input.phone.value))
    ensures Valid(db.(customers := db.customers + [NewCustomer(db, input)]))
  {
    var db' := db.(customers := db.customers + [NewCustomer(db, input)]);
    forall i | 0 <= i < |db.orders| ensures OrderValid(db', db.orders[i], i) {
      assert OrderValid(db, db.orders[i], i);
    }
  }

  lemma CreateCustomerPreservesValid(db: Db, v: EmailValidator, input: CustomerInput)
    requires Valid(db)
    ensures Valid(CreateCustomerStep(db, v, input).db)
  {
    if CreateCustomerStep(db, v, input).result.Ok? {
      AddCustomerPreservesValid(db, v, input);
    }
  }

  // --------------------------------------------------- BulkCreateCustomers

  datatype RowOutcome = Saved(customer: Customer) | Rejected(message: string)

  /** "Row k: " with the 1-based row number. */
  function RowLabel(k: nat): string {
    "Row " + NatToString(k) + ": "
  }

  /** One row of BulkCreateCustomers.mutate, against the store as the earlier rows left it. */
  function BulkRowStep(db: Db, v: EmailValidator, input: CustomerInput, k: nat): (r: (Db, RowOutcome))
    ensures !v.accepts(input.email) ==> r.1 == Rejected(RowLabel(k) + v.errorText)
    ensures (v.accepts(input.email) && EmailTaken(db.customers, input.email)) ==>
      r.1 == Rejected(RowLabel(k) + "Email " + input.email + " already exists")
    ensures (v.accepts(input.email) && !EmailTaken(db.customers, input.email) &&
             PhoneGiven(input.phone) && !Phone.PhoneMatches(input.phone.value)) ==>
      r.1 == Rejected(RowLabel(k) + "Invalid phone format for " + input.email)
    ensures r.1.Rejected? ==> r.0 == db
  {
    if !v.accepts(input.email) then (db, Rejected(RowLabel(k) + v.errorText))
    else if EmailTaken(db.customers, input.email) then
      (db, Rejected(RowLabel(k) + "Email " + input.email + " already exists"))
    else if PhoneGiven(input.phone) && !Phone.PhoneMatches(input.phone.value) then
      (db, Rejected(RowLabel(k) + "Invalid phone format for " + input.email))
    else
      var c := NewCustomer(db, input);
      (db.(customers := db.customers + [c]), Saved(c))
  }

  /** A row adds its customer, if saved, to the end of the customers table, and touches nothing else. */
  lemma BulkRowShape(db: Db, v: EmailValidator, input: CustomerInput, k: nat)
    ensures var (db', o) := BulkRowStep(db, v, input, k);
      && db'.customers == db.customers + (if o.Saved? then [o.customer] else [])
      && db'.products == db.products && db'.orders == db.orders
  {
  }

  datatype BulkRun = BulkRun(db: Db, outcomes: seq<RowOutcome>)

  /** The rows in input order, each seeing what the rows before it saved. */
  function BulkCreateRun(db: Db, v: EmailValidator, inputs: seq<CustomerInput>): (r: BulkRun)
    ensures |r.outcomes| == |inputs|
  {
    if inputs == [] then BulkRun(db, [])
    else
      var prev := BulkCreateRun(db, v, inputs[..|inputs| - 1]);
      var step := BulkRowStep(prev.db, v, inputs[|inputs| - 1], |inputs|);
      BulkRun(step.0, prev.outcomes + [step.1])
  }

  /** The last row of a run extends the run of the rows before it. */
  lemma BulkLastRow(db: Db, v: EmailValidator, inputs: seq<CustomerInput>)
    requires inputs != []
    ensures var n := |inputs|; var prev := BulkCreateRun(db, v, inputs[..n - 1]);
      var r := BulkCreateRun(db, v, inputs); var step := BulkRowStep(prev.db, v, inputs[n - 1], n);
      && r.db == step.0 && r.outcomes == prev.outcomes + [step.1]
      && prev.db.customers <= r.db.customers
  {
    var n := |inputs|;
    var prev := BulkCreateRun(db, v, inputs[..n - 1]);
    BulkRowShape(prev.db, v, inputs[n - 1], n);
  }

  /** Row i, run after the rows before it, extends the run's database, saved customers and errors by its own outcome. */
  lemma BulkNextRow(db: Db, v: EmailValidator, inputs: seq<CustomerInput>, i: nat)
    requires i < |inputs|
    ensures var run := BulkCreateRun(db, v, inputs[..i]); var next := BulkCreateRun(db, v, inputs[..i + 1]);
      var step := BulkRowStep(run.db, v, inputs[i], i + 1);
      && next.db == step.0
      && SavedCustomers(next.outcomes) == SavedCustomers(run.outcomes) + (if step.1.Saved? then [step.1.customer] else [])
      && RowErrors(next.outcomes) == RowErrors(run.outcomes) + (if step.1.Rejected? then [step.1.message] else [])
  {
    assert inputs[..i + 1][..i] == inputs[..i];
    var next := BulkCreateRun(db, v, inputs[..i + 1]);
    assert next.outcomes[..i] == BulkCreateRun(db, v, inputs[..i]).outcomes;
  }

  /** The `customers` list of the payload. */
  function SavedCustomers(os: seq<RowOutcome>): seq<Customer> {
    if os == [] then []
    else SavedCustomers(os[..|os| - 1]) + (if os[|os| - 1].Saved? then [os[|os| - 1].customer] else [])
  }

  /** The `errors` list of the payload. */
  function RowErrors(os: seq<RowOutcome>): seq<string> {
    if os == [] then []
    else RowErrors(os[..|os| - 1]) + (if os[|os| - 1].Rejected? then [os[|os| - 1].message] else [])
  }

  /** Each row is one saved customer or one error: none is lost and none is counted twice. */
  lemma {:induction false} OutcomesPartition(os: seq<RowOutcome>)
    ensures |SavedCustomers(os)| + |RowErrors(os)| == |os|
  {
    if os != [] { OutcomesPartition(os[..|os| - 1]); }
  }

  /** A row saved through the bulk mutation is saved exactly as CreateCustomer would save it. */
  lemma BulkRowAgreesWithCreate(db: Db, v: EmailValidator, input: CustomerInput, k: nat)
    ensures BulkRowStep(db, v, input, k).1.Saved? <==> CreateCustomerStep(db, v, input).result.Ok?
    ensures BulkRowStep(db, v, input, k).0 == CreateCustomerStep(db, v, input).db
    ensures BulkRowStep(db, v, input, k).1.Saved? ==>
      BulkRowStep(db, v, input, k).1.customer == CreateCustomerStep(db, v, input).result.value.0
  {
  }

  /**
   * Row k (0-based) yields a customer saved with that row's name and email,
   * or an error message that begins "Row k+1: ".
   */
  lemma {:induction false} BulkRowsLabelled(db: Db, v: EmailValidator, inputs: seq<CustomerInput>, k: nat)
    requires k < |inputs|
    ensures var o := BulkCreateRun(db, v, inputs).outcomes[k];
      && (o.Saved? ==> o.customer.name == inputs[k].name && o.customer.email == inputs[k].email)
      && (o.Rejected? ==> StartsWith(o.message, RowLabel(k + 1)))
  {
    var n := |inputs|;
    BulkLastRow(db, v, inputs);
    var prev := BulkCreateRun(db, v, inputs[..n - 1]);
    if k < n - 1 {
      BulkRowsLabelled(db, v, inputs[..n - 1], k);
      assert inputs[..n - 1][k] == inputs[k];
      assert BulkCreateRun(db, v, inputs).outcomes[k] == prev.outcomes[k];
    } else {
      RowStepLabelled(prev.db, v, inputs[n - 1], n);
      assert BulkCreateRun(db, v, inputs).outcomes[k] == BulkRowStep(prev.db, v, inputs[n - 1], n).1;
    }
  }

  /** One row's outcome: its own name and email when saved, its label first when rejected. */
  lemma RowStepLabelled(db: Db, v: EmailValidator, input: CustomerInput, k: nat)
    ensures var o := BulkRowStep(db, v, input, k).1;
      && (o.Saved? ==> o.customer.name == input.name && o.customer.email == input.email)
      && (o.Rejected? ==> StartsWith(o.message, RowLabel(k)))
  {
    var o := BulkRowStep(db, v, input, k).1;
    if o.Rejected? {
      assert o.message[..|RowLabel(k)|] == RowLabel(k);
    }
  }

  /**
   * There is no rollback: the customers table ends as it began followed by
   * the saved customers in input order; products and orders are untouched.
   */
  lemma {:induction false} BulkNoRollback(db: Db, v: EmailValidator, inputs: seq<CustomerInput>)
    ensures var r := BulkCreateRun(db, v, inputs);
      && r.db.customers == db.customers + SavedCustomers(r.outcomes)
      && r.db.products == db.products && r.db.orders == db.orders
  {
    if inputs != [] {
      var n := |inputs|;
      BulkNoRollback(db, v, inputs[..n - 1]);
      var prev := BulkCreateRun(db, v, inputs[..n - 1]);
      var step := BulkRowStep(prev.db, v, inputs[n - 1], n);
      BulkRowShape(prev.db, v, inputs[n - 1], n);
      var r := BulkCreateRun(db, v, inputs);
      assert r.outcomes == prev.outcomes + [step.1];
      assert r.outcomes[..n - 1] == prev.outcomes;
      assert SavedCustomers(r.outcomes) ==
        SavedCustomers(prev.outcomes) + (if step.1.Saved? then [step.1.customer] else []);
    }
  }

  lemma {:induction false} BulkOnlyAdds(db: Db, v: EmailValidator, inputs: seq<CustomerInput>, m: nat)
    requires m <= |inputs|
    ensures BulkCreateRun(db, v, inputs[..m]).db.customers <= BulkCreateRun(db, v, inputs).db.customers
    decreases |inputs| - m
  {
    if m < |inputs| {
      var n := |inputs|;
      assert inputs[..m] == inputs[..n - 1][..m];
      BulkOnlyAdds(db, v, inputs[..n - 1], m);
      BulkLastRow(db, v, inputs);
    } else {
      assert inputs[..m] == inputs;
    }
  }


  /**
   * Row k's outcome is settled once the rows up to it have run: the rows
   * after it do not change it, and it is row k's step on the database the
   * rows before it left.
   */
  lemma BulkOutcomePrefix(db: Db, v: EmailValidator, inputs: seq<CustomerInput>, k: nat)
    requires k < |inputs|
    ensures BulkCreateRun(db, v, inputs).outcomes[k] == BulkCreateRun(db, v, inputs[..k + 1]).outcomes[k]
    ensures BulkCreateRun(db, v, inputs[..k + 1]).outcomes[k] ==
      BulkRowStep(BulkCreateRun(db, v, inputs[..k]).db, v, inputs[k], k + 1).1
    ensures BulkCreateRun(db, v, inputs[..k + 1]).db ==
      BulkRowStep(BulkCreateRun(db, v, inputs[..k]).db, v, inputs[k], k + 1).0
  {
    OutcomeFixedByPrefix(db, v, inputs, k);
    assert inputs[..k + 1][..k] == inputs[..k];
    BulkLastRow(db, v, inputs[..k + 1]);
  }

  /** The rows after row k do not change its outcome. */
  lemma {:induction false} OutcomeFixedByPrefix(db: Db, v: EmailValidator, inputs: seq<CustomerInput>, k: nat)
    requires k < |inputs|
    ensures BulkCreateRun(db, v, inputs).outcomes[k] == BulkCreateRun(db, v, inputs[..k + 1]).outcomes[k]
    decreases |inputs| - k
  {
    var n := |inputs|;
    if k < n - 1 {
      var shorter := inputs[..n - 1];
      OutcomeKeptByLastRow(db, v, inputs, k);
      OutcomeFixedByPrefix(db, v, shorter, k);
      assert shorter[..k + 1] == inputs[..k + 1];
    } else {
      assert inputs[..k + 1] == inputs;
    }
  }

  /** The last row does not change the outcomes of the rows before it. */
  lemma OutcomeKeptByLastRow(db: Db, v: EmailValidator, inputs: seq<CustomerInput>, k: nat)
    requires k + 1 < |inputs|
    ensures BulkCreateRun(db, v, inputs).outcomes[k] == BulkCreateRun(db, v, inputs[..|inputs| - 1]).outcomes[k]
  {
    BulkLastRow(db, v, inputs);
  }

  /**
   * Later rows see earlier saves: a row whose email an earlier row saved gets
   * the "already exists" error (unless its email already fails the validator).
   */
  lemma BulkSeesEarlierSaves(db: Db, v: EmailValidator, inputs: seq<CustomerInput>, i: nat, j: nat)
    requires i < j < |inputs|
    requires BulkCreateRun(db, v, inputs).outcomes[i].Saved?
    requires inputs[j].email == inputs[i].email && v.accepts(inputs[j].email)
    ensures BulkCreateRun(db, v, inputs).outcomes[j] ==
      Rejected(RowLabel(j + 1) + "Email " + inputs[j].email + " already exists")
  {
    BulkOutcomePrefix(db, v, inputs, i);
    BulkOutcomePrefix(db, v, inputs, j);
    var before := BulkCreateRun(db, v, inputs[..i]).db;
    var after := BulkCreateRun(db, v, inputs[..i + 1]).db;
    var c := NewCustomer(before, inputs[i]);
    assert after.customers == before.customers + [c];
    BulkOnlyAdds(db, v, inputs[..j], i + 1);
    assert inputs[..j][..i + 1] == inputs[..i + 1];
    var seen := BulkCreateRun(db, v, inputs[..j]).db.customers;
    assert seen[|before.customers|] == c;
    assert EmailTaken(seen, inputs[j].email);
  }

  lemma {:induction false} BulkPreservesValid(db: Db, v: EmailValidator, inputs: seq<CustomerInput>)
    requires Valid(db)
    ensures Valid(BulkCreateRun(db, v, inputs).db)
  {
    if inputs != [] {
      var n := |inputs|;
      BulkPreservesValid(db, v, inputs[..n - 1]);
      var prev := BulkCreateRun(db, v, inputs[..n - 1]);
      BulkRowAgreesWithCreate(prev.db, v, inputs[n - 1], n);
      CreateCustomerPreservesValid(prev.db, v, inputs[n - 1]);
    }
  }

  // --------------------------------------------------------- CreateProduct

  /**
   * CreateProduct.mutate: a price <= 0 raises first; an absent stock is 0
   * and a negative one raises; otherwise exactly one product is added.
   */
  function CreateProductStep(db: Db, input: ProductInput): (r: Outcome<Product>)
    ensures input.price <= 0.0 ==> r.result == Err(PriceNotPositive)
    ensures input.price > 0.0 && input.stock.Some? && input.stock.value < 0 ==> r.result == Err(NegativeStock)
    ensures r.result.Err? ==> r.db == db
    ensures r.result.Ok? <==> input.price > 0.0 && (input.stock.None? || input.stock.value >= 0)
    ensures r.result.Ok? ==>
      && r.db == db.(products := db.products + [r.result.value])
      && r.result.value == Product(|db.products| + 1, input.name, input.price,
                                   if input.stock.Some? then input.stock.value else 0)
  {
    if input.price <= 0.0 then Outcome(db, Err(PriceNotPositive))
    else
      var stock := if input.stock.Some? then input.stock.value else 0;
      if stock < 0 then Outcome(db, Err(NegativeStock))
      else
        var p := Product(|db.products| + 1, input.name, input.price, stock);
        Outcome(db.(products := db.products + [p]), Ok(p))
  }

  lemma CreateProductPreservesValid(db: Db, input: ProductInput)
    requires Valid(db)
    ensures Valid(CreateProductStep(db, input).db)
  {
    var r := CreateProductStep(db, input);
    if r.result.Ok? {
      forall i | 0 <= i < |db.orders| ensures OrderValid(r.db, db.orders[i], i) {
        assert OrderValid(db, db.orders[i], i);
      }
    }
  }

  // ----------------------------------------------------------- CreateOrder

  predicate Known(ps: seq<Product>, id: nat) {
    ProductById(ps, id).Some?
  }

  /**
   * The products of the listed ids, in list order and with repeats; on the
   * first id, in list order, that names no product, the error for that id.
   */
  function LookupProducts(ps: seq<Product>, ids: seq<nat>): (r: Result<seq<Product>, string>)
    ensures r.Ok? <==> forall i :: 0 <= i < |ids| ==> Known(ps, ids[i])
    ensures r.Ok? ==> |r.value| == |ids| && forall i :: 0 <= i < |ids| ==> Some(r.value[i]) == ProductById(ps, ids[i])
    ensures r.Err? ==> exists k :: (0 <= k < |ids| && !Known(ps, ids[k]) &&
      (forall i :: 0 <= i < k ==> Known(ps, ids[i])) && r.error == UnknownProduct(ids[k]))
  {
    if ids == [] then Ok([])
    else
      var n := |ids|;
      var prefix := ids[..n - 1];
      assert forall i :: 0 <= i < n - 1 ==> prefix[i] == ids[i];
      match LookupProducts(ps, prefix)
      case Err(m) => Err(m)
      case Ok(found) =>
        match ProductById(ps, ids[n - 1])
        case None => Err(UnknownProduct(ids[n - 1]))
        case Some(p) => Ok(found + [p])
  }

  /** The sum of the prices, from 0.00, one term per list entry. */
  function TotalPrice(ps: seq<Product>): real {
    if ps == [] then 0.0 else TotalPrice(ps[..|ps| - 1]) + ps[|ps| - 1].price
  }

  function ProductIdSet(ids: seq<nat>): set<nat> {
    set id | id in ids
  }

  /**
   * CreateOrder.mutate: an unknown customer raises first, then an empty
   * product list, then the first unknown product id; nothing is saved on
   * any of these. Otherwise exactly one order is added, whose total is the
   * sum of the listed prices and whose date is the one given, if any.
   */
  function CreateOrderStep(db: Db, input: OrderInput): (r: Outcome<Order>)
    ensures CustomerById(db.customers, input.customerId).None? ==> r.result == Err(UnknownCustomer(input.customerId))
    ensures CustomerById(db.customers, input.customerId).Some? && input.productIds == [] ==> r.result == Err(NoProducts)
    ensures CustomerById(db.customers, input.customerId).Some? && input.productIds != [] ==>
      (r.result.Err? <==> LookupProducts(db.products, input.productIds).Err?)
    ensures (CustomerById(db.customers, input.customerId).Some? && input.productIds != [] &&
             LookupProducts(db.products, input.productIds).Err?) ==>
      r.result == Err(LookupProducts(db.products, input.productIds).error)
    ensures r.result.Err? ==> r.db == db
    ensures r.result.Ok? ==>
      var o := r.result.value;
      && r.db == db.(orders := db.orders + [o])
      && o.id == |db.orders| + 1 && o.customerId == input.customerId
      && o.productIds == ProductIdSet(input.productIds)
      && o.totalAmount == TotalPrice(LookupProducts(db.products, input.productIds).value)
      && o.orderDate == input.orderDate
  {
    match CustomerById(db.customers, input.customerId)
    case None => Outcome(db, Err(UnknownCustomer(input.customerId)))
    case Some(c) =>
      if input.productIds == [] then Outcome(db, Err(NoProducts))
      else
        match LookupProducts(db.products, input.productIds)
        case Err(m) => Outcome(db, Err(m))
        case Ok(ps) =>
          var o := Order(|db.orders| + 1, c.id, ProductIdSet(input.productIds), TotalPrice(ps), input.orderDate);
          Outcome(db.(orders := db.orders + [o]), Ok(o))
  }

  lemma {:induction false} TotalOfPositivePrices(ps: seq<Product>)
    requires ps != [] && forall i :: 0 <= i < |ps| ==> ps[i].price > 0.0
    ensures TotalPrice(ps) > 0.0
  {
    if |ps| > 1 {
      TotalOfPositivePrices(ps[..|ps| - 1]);
    }
  }

  /** In a valid store every order that can be created has a positive total. */
  lemma OrderTotalPositive(db: Db, input: OrderInput)
    requires Valid(db)
    requires CreateOrderStep(db, input).result.Ok?
    ensures CreateOrderStep(db, input).result.value.totalAmount > 0.0
  {
    var ps := LookupProducts(db.products, input.productIds).value;
    forall i | 0 <= i < |ps| ensures ps[i].price > 0.0 {
      ProductByIdInValid(db, input.productIds[i]);
    }
    TotalOfPositivePrices(ps);
  }

  lemma CreateOrderPreservesValid(db: Db, input: OrderInput)
    requires Valid(db)
    ensures Valid(CreateOrderStep(db, input).db)
  {
    var r := CreateOrderStep(db, input);
    if r.result.Ok? {
      NewOrderValid(db, input);
      AppendOrderValid(db, r.result.value);
    }
  }

  /** The order CreateOrder saves refers to stored rows and costs more than nothing. */
  lemma NewOrderValid(db: Db, input: OrderInput)
    requires Valid(db) && CreateOrderStep(db, input).result.Ok?
    ensures OrderValid(CreateOrderStep(db, input).db, CreateOrderStep(db, input).result.value, |db.orders|)
  {
    var r := CreateOrderStep(db, input);
    OrderTotalPositive(db, input);
    CustomerByIdInValid(db, input.customerId);
    forall p | p in r.result.value.productIds ensures 1 <= p <= |db.products| {
      var k :| 0 <= k < |input.productIds| && input.productIds[k] == p;
      ProductByIdInValid(db, p);
    }
    assert input.productIds[0] in r.result.value.productIds;
  }

  /** Appending a valid order keeps the store valid. */
  lemma AppendOrderValid(db: Db, o: Order)
    requires Valid(db) && OrderValid(db.(orders := db.orders + [o]), o, |db.orders|)
    ensures Valid(db.(orders := db.orders + [o]))
  {
    var next := db.(orders := db.orders + [o]);
    forall i | 0 <= i < |next.orders| ensures OrderValid(next, next.orders[i], i) {
      if i < |db.orders| {
        assert OrderValid(db, db.orders[i], i);
      }
    }
  }

  /** A product listed twice is charged twice. */
  lemma RepeatedProductChargedTwice(db: Db, c: nat, p: nat, date: Option<Clock.DateTime>)
    requires CreateOrderStep(db, OrderInput(c, [p, p], date)).result.Ok?
    ensures CreateOrderStep(db, OrderInput(c, [p, p], date)).result.value.totalAmount ==
      2.0 * ProductById(db.products, p).value.price
    ensures CreateOrderStep(db, OrderInput(c, [p, p], date)).result.value.productIds == {p}
  {
    var r := CreateOrderStep(db, OrderInput(c, [p, p], date));
    var ps := LookupProducts(db.products, [p, p]).value;
    assert r.result.value.totalAmount == TotalPrice(ps);
    var price := ProductById(db.products, p).value.price;
    assert |ps| == 2 && ps[0].price == price && ps[1].price == price;
    assert ps[..1][..0] == [];
    assert TotalPrice(ps[..1]) == price;
    assert ProductIdSet([p, p]) == {p};
  }

  // ------------------------------------------------------------ the store

  /** The ORM's tables as one object that the mutations update in place. */
  class Store {
    var customers: seq<Customer>
    var products: seq<Product>
    var orders: seq<Order>

    function Contents(): Db
      reads this
    {
      Db(customers, products, orders)
    }

    constructor ()
      ensures Contents() == Db([], [], []) && Valid(Contents())
    {
      customers, products, orders := [], [], [];
    }

    method CreateCustomer(v: EmailValidator, input: CustomerInput) returns (r: Result<(Customer, string), string>)
      modifies this
      ensures CreateCustomerStep(old(Contents()), v, input) == Outcome(Contents(), r)
    {
      if !v.accepts(input.email) {
        return Err(InvalidEmail);
      }
      if EmailTaken(customers, input.email) {
        return Err(EmailExists);
      }
      if PhoneGiven(input.phone) && !Phone.PhoneMatches(input.phone.value) {
        return Err(InvalidPhone);
      }
      var c := Customer(|customers| + 1, input.name, input.email,
                        if PhoneGiven(input.phone) then input.phone else None);
      customers := customers + [c];
      r := Ok((c, CustomerCreated));
    }

    method BulkCreateCustomers(v: EmailValidator, inputs: seq<CustomerInput>)
      returns (saved: seq<Customer>, errors: seq<string>)
      modifies this
      ensures var run := BulkCreateRun(old(Contents()), v, inputs);
        Contents() == run.db && saved == SavedCustomers(run.outcomes) && errors == RowErrors(run.outcomes)
    {
      saved, errors := [], [];
      var i := 0;
      while i < |inputs|
        invariant 0 <= i <= |inputs|
        invariant var run := BulkCreateRun(old(Contents()), v, inputs[..i]);
          Contents() == run.db && saved == SavedCustomers(run.outcomes) && errors == RowErrors(run.outcomes)
      {
        var input := inputs[i];
        BulkNextRow(old(Contents()), v, inputs, i);
        ghost var step := BulkRowStep(Contents(), v, input, i + 1);
        ghost var errorsBefore, savedBefore := errors, saved;
        var rowLabel := RowLabel(i + 1);
        if !v.accepts(input.email) {
          errors := errors + [rowLabel + v.errorText];
        } else if EmailTaken(customers, input.email) {
          errors := errors + [rowLabel + "Email " + input.email + " already exists"];
        } else if PhoneGiven(input.phone) && !Phone.PhoneMatches(input.phone.value) {
          errors := errors + [rowLabel + "Invalid phone format for " + input.email];
        } else {
          var c := Customer(|customers| + 1, input.name, input.email,
                            if PhoneGiven(input.phone) then input.phone else None);
          assert step == (Db(customers + [c], products, orders), Saved(c));
          customers := customers + [c];
          saved := saved + [c];
        }
        assert Contents() == step.0;
        assert errors == errorsBefore + (if step.1.Rejected? then [step.1.message] else []);
        assert saved == savedBefore + (if step.1.Saved? then [step.1.customer] else []);
        i := i + 1;
      }
      assert inputs[..i] == inputs;
    }

    method CreateProduct(input: ProductInput) returns (r: Result<Product, string>)
      modifies this
      ensures CreateProductStep(old(Contents()), input) == Outcome(Contents(), r)
    {
      if input.price <= 0.0 {
        return Err(PriceNotPositive);
      }
      var stock := if input.stock.Some? then input.stock.value else 0;
      if stock < 0 {
        return Err(NegativeStock);
      }
      var p := Product(|products| + 1, input.name, input.price, stock);
      products := products + [p];
      r := Ok(p);
    }

    /**
     * The loop of CreateOrder.mutate: fetch each listed product in turn,
     * adding its price to a total that starts at 0.00; raise on the first
     * unknown id.
     */
    method FetchProducts(ids: seq<nat>) returns (r: Result<(seq<Product>, real), string>)
      ensures r.Err? <==> LookupProducts(products, ids).Err?
      ensures r.Err? ==> r.error == LookupProducts(products, ids).error
      ensures r.Ok? ==> r.value.0 == LookupProducts(products, ids).value && r.value.1 == TotalPrice(r.value.0)
    {
      var found: seq<Product> := [];
      var total := 0.0;
      var i := 0;
      while i < |ids|
        invariant 0 <= i <= |ids|
        invariant LookupProducts(products, ids[..i]) == Ok(found)
        invariant total == TotalPrice(found)
      {
        var p := ProductById(products, ids[i]);
        if p.None? {
          LookupFailsOnce(products, ids, i);
          return Err(UnknownProduct(ids[i]));
        }
        LookupStep(products, ids, i, found, p.value);
        found := found + [p.value];
        total := total + p.value.price;
        i := i + 1;
      }
      assert ids[..i] == ids;
      r := Ok((found, total));
    }

    method CreateOrder(input: OrderInput) returns (r: Result<Order, string>)
      modifies this
      ensures CreateOrderStep(old(Contents()), input) == Outcome(Contents(), r)
    {
      var customer := CustomerById(customers, input.customerId);
      if customer.None? {
        return Err(UnknownCustomer(input.customerId));
      }
      if input.productIds == [] {
        return Err(NoProducts);
      }
      var fetched := FetchProducts(input.productIds);
      if fetched.Err? {
        return Err(fetched.error);
      }
      var o := Order(|orders| + 1, customer.value.id, ProductIdSet(input.productIds), fetched.value.1,
                     input.orderDate);
      orders := orders + [o];
      r := Ok(o);
    }
  }

  /** One more known id appends its product to a lookup that has not failed. */
  lemma LookupStep(ps: seq<Product>, ids: seq<nat>, i: nat, found: seq<Product>, p: Product)
    requires i < |ids| && LookupProducts(ps, ids[..i]) == Ok(found) && ProductById(ps, ids[i]) == Some(p)
    ensures LookupProducts(ps, ids[..i + 1]) == Ok(found + [p])
  {
    assert ids[..i + 1][..i] == ids[..i];
  }

  /** A lookup that fails at position i fails on every longer list with the error for ids[i]. */
  lemma LookupFailsOnce(ps: seq<Product>, ids: seq<nat>, i: nat)
    requires i < |ids| && LookupProducts(ps, ids[..i]).Ok? && !Known(ps, ids[i])
    ensures LookupProducts(ps, ids) == Err(UnknownProduct(ids[i]))
  {
    var r := LookupProducts(ps, ids);
    assert r.Err?;
    var k :| 0 <= k < |ids| && !Known(ps, ids[k]) && (forall j :: 0 <= j < k ==> Known(ps, ids[j]))
      && r.error == UnknownProduct(ids[k]);
    assert forall j :: 0 <= j < i ==> ids[..i][j] == ids[j];
    assert k == i;
  }
}
