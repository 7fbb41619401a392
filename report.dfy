/**
 * The report task (crm/tasks.py, generate_crm_report): counts the customer
 * and order edges of one GraphQL result, sums the orders' totalAmount as
 * Decimals, appends one report line to the report log, echoes it to the
 * console and returns it; on any exception it logs and echoes an error line
 * instead and re-raises.
 */
module Report {
  import opened Results
  import opened Text
  import opened Clock
  import opened PyJson
  import opened Decimals
  import opened Seqs
  import Sinks

  const ReportTag := " - Report: "
  const CustomersTag := " customers, "
  const OrdersTag := " orders, $"
  const RevenueTag := " revenue."
  const ErrorTag := " - ERROR: "
  const Generated := "CRM Report generated: "
  const Failing := "Error generating CRM report: "

  /** What a call of the task ends with: the report message it returns, or the exception it re-raises. */
  datatype Outcome = Returned(message: string) | Raised(error: string)

  /** The lines a call appends to the report log and to the console, and how it ends. */
  datatype Run = Run(log: seq<string>, console: seq<string>, outcome: Outcome)

  datatype Stats = Stats(customers: nat, orders: nat, revenue: real)

  // ---------------------------------------------------------------------
  // Revenue
  // ---------------------------------------------------------------------

  /**
   * What one order edge adds to the revenue: order.get('node', {}), then
   * node.get('totalAmount', '0'), then Decimal(str(amount)) when the amount
   * is truthy and nothing (zero) when it is not.
   */
  function Amount(order: Json): Result<real, string> {
    match DictGet(order, "node", JObj([]))
    case Err(e) => Err(e)
    case Ok(node) =>
      match DictGet(node, "totalAmount", JStr("0"))
      case Err(e) => Err(e)
      case Ok(amount) =>
        if !Truthy(amount) then Ok(0.0)
        else match ParseDecimal(Str(amount))
          case None => Err(ConversionSyntax)
          case Some(x) => Ok(x)
  }

  /** The order edges' amounts, in iteration order. */
  function Amounts(orders: seq<Json>): (r: seq<Result<real, string>>)
    ensures |r| == |orders| && forall i :: 0 <= i < |orders| ==> r[i] == Amount(orders[i])
  {
    Map(Amount, orders)
  }

  /** A running Decimal sum from zero; the first amount that raised ends the sum with its error. */
  function Sum(amounts: seq<Result<real, string>>): (r: Result<real, string>)
    ensures r.Ok? <==> forall i :: 0 <= i < |amounts| ==> amounts[i].Ok?
    ensures r.Err? ==> exists i :: (0 <= i < |amounts| && amounts[i].Err? && r.error == amounts[i].error
      && forall j :: 0 <= j < i ==> amounts[j].Ok?)
  {
    if amounts == [] then Ok(0.0)
    else
      var front := amounts[..|amounts| - 1];
      assert forall i :: 0 <= i < |front| ==> front[i] == amounts[i];
      match Sum(front)
      case Err(e) => Err(e)
      case Ok(total) =>
        match amounts[|amounts| - 1]
        case Err(e) => Err(e)
        case Ok(x) => Ok(total + x)
  }

  /** One more amount adds its value to a sum that has not failed. */
  lemma SumStep(amounts: seq<Result<real, string>>, i: nat, total: real, x: real)
    requires i < |amounts| && Sum(amounts[..i]) == Ok(total) && amounts[i] == Ok(x)
    ensures Sum(amounts[..i + 1]) == Ok(total + x)
  {
    assert amounts[..i + 1][..i] == amounts[..i];
  }

  /** The revenue of the order edges: the sum of their amounts in iteration order. */
  function Revenue(orders: seq<Json>): Result<real, string> {
    Sum(Amounts(orders))
  }

  /** Two sums that end at the same first failing amount report the same error. */
  lemma SumFailsOnce(amounts: seq<Result<real, string>>, i: nat)
    requires i < |amounts| && Sum(amounts[..i]).Ok? && amounts[i].Err?
    ensures Sum(amounts) == Err(amounts[i].error)
  {
    var r := Sum(amounts);
    assert forall j :: 0 <= j < i ==> amounts[..i][j] == amounts[j];
    var k :| 0 <= k < |amounts| && amounts[k].Err? && r.error == amounts[k].error
      && forall j :: 0 <= j < k ==> amounts[j].Ok?;
  }

  /** The sum of two runs of amounts laid end to end is the sum of their sums. */
  lemma {:induction false} SumConcat(u: seq<Result<real, string>>, w: seq<Result<real, string>>)
    ensures Sum(u + w).Ok? <==> Sum(u).Ok? && Sum(w).Ok?
    ensures Sum(u + w).Ok? ==> Sum(u + w).value == Sum(u).value + Sum(w).value
  {
    var s := u + w;
    if Sum(u).Ok? && Sum(w).Ok? {
      forall i | 0 <= i < |s| ensures s[i].Ok? {
        if i < |u| { assert s[i] == u[i]; } else { assert s[i] == w[i - |u|]; }
      }
    }
    if Sum(s).Ok? {
      forall i | 0 <= i < |u| ensures u[i].Ok? { assert s[i] == u[i]; }
      forall i | 0 <= i < |w| ensures w[i].Ok? { assert s[|u| + i] == w[i]; }
    }
    if w == [] {
      assert s == u;
    } else if Sum(s).Ok? {
      var w' := w[..|w| - 1];
      assert s[..|s| - 1] == u + w';
      assert s[|s| - 1] == w[|w| - 1];
      SumConcat(u, w');
    }
  }

  /** Taking the same element out of two permutations of each other leaves permutations of each other. */
  lemma RemoveMatching<T>(a: seq<T>, b: seq<T>, j: nat)
    requires multiset(a) == multiset(b) && |a| > 0 && j < |b| && b[j] == a[|a| - 1]
    ensures multiset(b[..j] + b[j + 1..]) == multiset(a[..|a| - 1])
  {
    var x := a[|a| - 1];
    assert a == a[..|a| - 1] + [x];
    assert b == b[..j] + [x] + b[j + 1..];
    assert multiset(b[..j] + b[j + 1..]) == multiset(b) - multiset{x};
    assert multiset(a[..|a| - 1]) == multiset(a) - multiset{x};
  }

  /** Summing with one amount taken out, then adding it, gives the whole sum. */
  lemma {:induction false} SumWithout(b: seq<Result<real, string>>, j: nat)
    requires j < |b|
    ensures Sum(b).Ok? <==> Sum(b[..j] + b[j + 1..]).Ok? && b[j].Ok?
    ensures Sum(b).Ok? ==> Sum(b).value == Sum(b[..j] + b[j + 1..]).value + b[j].value
  {
    var left, x, right := b[..j], b[j], b[j + 1..];
    assert b == left + [x] + right;
    assert Sum([x]) == (if x.Ok? then Ok(x.value) else Err(x.error)) by {
      assert [x][..0] == [];
    }
    SumConcat(left, right);
    SumConcat(left, [x]);
    SumConcat(left + [x], right);
  }

  /** A sum does not depend on the order in which its amounts come. */
  lemma {:induction false} SumOrderFree(a: seq<Result<real, string>>, b: seq<Result<real, string>>)
    requires multiset(a) == multiset(b) && Sum(a).Ok?
    ensures Sum(b) == Sum(a)
  {
    if a == [] {
      assert |b| == |multiset(b)| == 0;
    } else {
      var n := |a|;
      var x := a[n - 1];
      assert x in multiset(b);
      var j :| 0 <= j < |b| && b[j] == x;
      RemoveMatching(a, b, j);
      SumWithout(a, n - 1);
      assert a[..n - 1] + a[n..] == a[..n - 1];
      SumOrderFree(a[..n - 1], b[..j] + b[j + 1..]);
      SumWithout(b, j);
    }
  }

  /** Mapping two permutations of each other gives permutations of each other. */
  lemma {:induction false} MapPermute<A, B>(f: A -> B, a: seq<A>, b: seq<A>)
    requires multiset(a) == multiset(b)
    ensures multiset(Map(f, a)) == multiset(Map(f, b))
  {
    if a == [] {
      assert |b| == |multiset(b)| == 0;
    } else {
      var n := |a|;
      var x := a[n - 1];
      assert x in multiset(b);
      var j :| 0 <= j < |b| && b[j] == x;
      var left, right := b[..j], b[j + 1..];
      RemoveMatching(a, b, j);
      MapPermute(f, a[..n - 1], left + right);
      assert a == a[..n - 1] + [x];
      assert b == left + [x] + right;
      MapConcat(f, a[..n - 1], [x]);
      MapConcat(f, left, right);
      MapConcat(f, left, [x]);
      MapConcat(f, left + [x], right);
    }
  }

  /** The revenue does not depend on the order in which the edges come, when no edge raises. */
  lemma RevenueOrderFree(a: seq<Json>, b: seq<Json>)
    requires multiset(a) == multiset(b) && Revenue(a).Ok?
    ensures Revenue(b) == Revenue(a)
  {
    MapPermute(Amount, a, b);
    assert Amounts(a) == Map(Amount, a);
    assert Amounts(b) == Map(Amount, b);
    SumOrderFree(Amounts(a), Amounts(b));
  }

  /** The revenue loop of the task: total_revenue starts at Decimal('0.00') and takes each order's amount in turn. */
  method SumRevenue(orders: seq<Json>) returns (r: Result<real, string>)
    ensures r == Revenue(orders)
  {
    var total := 0.0;
    var i := 0;
    while i < |orders|
      invariant 0 <= i <= |orders|
      invariant Revenue(orders[..i]) == Ok(total)
    {
      var amount := Amount(orders[i]);
      if amount.Err? {
        RevenueFailsAt(orders, i);
        return Err(amount.error);
      }
      RevenueStep(orders, i, total, amount.value);
      total := total + amount.value;
      i := i + 1;
    }
    assert orders[..i] == orders;
    return Ok(total);
  }

  lemma RevenueStep(orders: seq<Json>, i: nat, total: real, x: real)
    requires i < |orders| && Revenue(orders[..i]) == Ok(total) && Amount(orders[i]) == Ok(x)
    ensures Revenue(orders[..i + 1]) == Ok(total + x)
  {
    SumMapStep(Amount, orders, i, total, x);
  }

  lemma RevenueFailsAt(orders: seq<Json>, i: nat)
    requires i < |orders| && Revenue(orders[..i]).Ok? && Amount(orders[i]).Err?
    ensures Revenue(orders) == Err(Amount(orders[i]).error)
  {
    SumMapFails(Amount, orders, i);
  }

  lemma SumMapStep<A>(f: A -> Result<real, string>, xs: seq<A>, i: nat, total: real, x: real)
    requires i < |xs| && Sum(Map(f, xs[..i])) == Ok(total) && f(xs[i]) == Ok(x)
    ensures Sum(Map(f, xs[..i + 1])) == Ok(total + x)
  {
    var prefix := xs[..i + 1];
    assert prefix[..i] == xs[..i];
    MapPrefix(f, prefix, i);
    SumStep(Map(f, prefix), i, total, x);
  }

  lemma SumMapFails<A>(f: A -> Result<real, string>, xs: seq<A>, i: nat)
    requires i < |xs| && Sum(Map(f, xs[..i])).Ok? && f(xs[i]).Err?
    ensures Sum(Map(f, xs)) == Err(f(xs[i]).error)
  {
    MapPrefix(f, xs, i);
    SumFailsOnce(Map(f, xs), i);
  }

  // ---------------------------------------------------------------------
  // Statistics of one query result
  // ---------------------------------------------------------------------

  /** result.get(key, {}).get('edges', []) */
  function Edges(data: seq<(string, Json)>, key: string): Result<Json, string> {
    DictGet(DictGet(JObj(data), key, JObj([])).value, "edges", JList([]))
  }

  /** The statistics of a result, with the error of the first step that raises: customer edges, their count, order edges, their count, the revenue loop. */
  function Gather(response: Response): Result<Stats, string> {
    match response
    case Failed(e) => Err(e)
    case Answered(data) =>
      match Edges(data, "allCustomers")
      case Err(e) => Err(e)
      case Ok(customers) =>
        match Len(customers)
        case Err(e) => Err(e)
        case Ok(c) =>
          match Edges(data, "allOrders")
          case Err(e) => Err(e)
          case Ok(orders) =>
            match Len(orders)
            case Err(e) => Err(e)
            case Ok(o) =>
              match Iterate(orders)
              case Err(e) => Err(e)
              case Ok(items) =>
                match Revenue(items)
                case Err(e) => Err(e)
                case Ok(revenue) => Ok(Stats(c, o, revenue))
  }

  /** A well-formed result: both connections present with their edges as lists. */
  predicate WellFormed(data: seq<(string, Json)>, customers: seq<Json>, orders: seq<Json>) {
    Edges(data, "allCustomers") == Ok(JList(customers)) && Edges(data, "allOrders") == Ok(JList(orders))
  }

  /** On a well-formed result the counts are the numbers of edges, and the task succeeds exactly when every order edge yields an amount. */
  lemma GatherWellFormed(data: seq<(string, Json)>, customers: seq<Json>, orders: seq<Json>)
    requires WellFormed(data, customers, orders)
    ensures Gather(Answered(data)).Ok? <==> forall i :: 0 <= i < |orders| ==> Amount(orders[i]).Ok?
    ensures Gather(Answered(data)).Ok? ==>
      Gather(Answered(data)).value == Stats(|customers|, |orders|, Revenue(orders).value)
    ensures Gather(Answered(data)).Err? ==> Gather(Answered(data)).error == Revenue(orders).error
  {
  }

  /** A result without either connection counts nothing and earns nothing. */
  lemma EmptyResultGathersZeros()
    ensures Gather(Answered([])) == Ok(Stats(0, 0, 0.0))
  {
    assert !HasKey([], "allCustomers") && !HasKey([], "allOrders");
    assert !HasKey([], "edges");
  }

  /** An order whose totalAmount is not a number raises decimal.InvalidOperation, and so does the whole task. */
  lemma NonNumericAmountRaises(data: seq<(string, Json)>, customers: seq<Json>, node: seq<(string, Json)>)
    requires WellFormed(data, customers, [JObj([("node", JObj(node))])])
    requires Lookup(node, "totalAmount") == Some(JStr("abc"))
    ensures Gather(Answered(data)) == Err(ConversionSyntax)
  {
    var order := JObj([("node", JObj(node))]);
    NonNumericAmount(node);
    var amounts := Amounts([order]);
    assert amounts[..0] == [];
    SumFailsOnce(amounts, 0);
    GatherWellFormed(data, customers, [order]);
  }

  lemma NonNumericAmount(node: seq<(string, Json)>)
    requires Lookup(node, "totalAmount") == Some(JStr("abc"))
    ensures Amount(JObj([("node", JObj(node))])) == Err(ConversionSyntax)
  {
    NotADecimal();
    AmountOfText(node, "abc");
  }

  /** The amount of an edge whose node has a non-empty totalAmount string is Decimal of that string. */
  lemma AmountOfText(node: seq<(string, Json)>, text: string)
    requires Lookup(node, "totalAmount") == Some(JStr(text)) && text != ""
    ensures ParseDecimal(text).None? ==> Amount(JObj([("node", JObj(node))])) == Err(ConversionSyntax)
    ensures ParseDecimal(text).Some? ==> Amount(JObj([("node", JObj(node))])) == Ok(ParseDecimal(text).value)
  {
    var edge := [("node", JObj(node))];
    assert DictGet(JObj(edge), "node", JObj([])) == Ok(JObj(node)) by {
      assert edge[0].0 == "node";
    }
    assert DictGet(JObj(node), "totalAmount", JStr("0")) == Ok(JStr(text));
    assert Truthy(JStr(text)) && Str(JStr(text)) == text;
  }

  /**
   * An absent totalAmount defaults to '0', which adds zero; a falsy one
   * (None, False, 0, '', [] or {}) is skipped.
   */
  lemma AmountMissingOrFalsyIsZero(node: seq<(string, Json)>)
    requires !HasKey(node, "totalAmount") || !Truthy(Lookup(node, "totalAmount").value)
    ensures Amount(JObj([("node", JObj(node))])) == Ok(0.0)
  {
    var edge := [("node", JObj(node))];
    assert DictGet(JObj(edge), "node", JObj([])) == Ok(JObj(node)) by {
      assert edge[0].0 == "node";
    }
    if !HasKey(node, "totalAmount") {
      ZeroLiteral();
    }
  }

  /** An edge without a node reads the default {} and so adds Decimal('0'). */
  lemma AmountWithoutNodeIsZero(edge: seq<(string, Json)>)
    requires !HasKey(edge, "node")
    ensures Amount(JObj(edge)) == Ok(0.0)
  {
    var empty: seq<(string, Json)> := [];
    assert !HasKey(empty, "totalAmount");
    ZeroLiteral();
  }

  /** An edge that is not a dict raises AttributeError at `order.get`. */
  lemma AmountOfNonDictRaises(order: Json)
    requires !order.JObj?
    ensures Amount(order) == Err(NoAttribute(order, "get"))
  {
  }

  /** A node that is not a dict raises AttributeError at `order_node.get`. */
  lemma AmountOfNonDictNodeRaises(node: Json)
    requires !node.JObj?
    ensures Amount(JObj([("node", node)])) == Err(NoAttribute(node, "get"))
  {
    var edge := [("node", node)];
    assert edge[0].0 == "node";
  }

  /** Decimal('0') */
  lemma ZeroLiteral()
    ensures ParseDecimal("0") == Some(0.0)
  {
    assert DotIndex("0") == 1;
    assert "0"[..1] == "0";
    assert ParseDigits("0") == 0 by {
      assert "0"[..0] == "";
    }
  }

  lemma NotADecimal()
    ensures ParseDecimal("abc") == None
  {
    assert DotIndex("abc") == 3;
    assert !IsDigit("abc"[0]);
  }

  function EdgeWithAmount(amount: string): Json {
    JObj([("node", JObj([("totalAmount", JStr(amount))]))])
  }

  /** Amounts are added as exact decimals: 10.10 and 0.90 make 11.00. */
  lemma DecimalSumExact()
    ensures Revenue([EdgeWithAmount("10.10"), EdgeWithAmount("0.90")]) == Ok(11.0)
    ensures Fixed2(11.0) == "11.00"
  {
    RenderedTenTen();
    RenderedNinetyCents();
    RenderedEleven();
    TwoPlaceAmountExact(10.1, 1010);
    TwoPlaceAmountExact(0.9, 90);
    RevenueOfTwo(EdgeWithAmount("10.10"), 10.1, EdgeWithAmount("0.90"), 0.9);
  }

  lemma RenderedTenTen()
    ensures Fixed2(10.1) == "10.10"
  {
    TwoDigits(1, 0);
    assert Pad2(10) == "10";
    Rendered(10.1, 1010, "10.10");
  }

  lemma RenderedNinetyCents()
    ensures Fixed2(0.9) == "0.90"
  {
    assert NatToString(0) == "0";
    assert Pad2(90) == "90";
    Rendered(0.9, 90, "0.90");
  }

  lemma RenderedEleven()
    ensures Fixed2(11.0) == "11.00"
  {
    TwoDigits(1, 1);
    assert Pad2(0) == "00";
    Rendered(11.0, 1100, "11.00");
  }

  /** The decimal text of a two-digit number. */
  lemma TwoDigits(a: nat, b: nat)
    requires 0 < a < 10 && b < 10
    ensures NatToString(10 * a + b) == [DigitChar(a), DigitChar(b)]
  {
    var n := 10 * a + b;
    assert n / 10 == a && n % 10 == b;
  }

  lemma RevenueOfTwo(first: Json, x: real, second: Json, y: real)
    requires Amount(first) == Ok(x) && Amount(second) == Ok(y)
    ensures Revenue([first, second]) == Ok(x + y)
  {
    var amounts := Amounts([first, second]);
    assert amounts == [Ok(x), Ok(y)];
    SumOfTwo(x, y);
  }

  lemma SumOfTwo(x: real, y: real)
    ensures Sum([Ok(x), Ok(y)]) == Ok(x + y)
  {
    var amounts: seq<Result<real, string>> := [Ok(x), Ok(y)];
    var one := amounts[..1];
    assert one == [Ok(x)];
    assert one[..0] == [];
    assert Sum(one) == Ok(0.0 + x);
  }

  lemma Rendered(x: real, cents: nat, text: string)
    requires x * 100.0 == cents as real && x >= 0.0
    requires text == Cents2(cents)
    ensures Fixed2(x) == text
  {
    WholeCentsExact(x, cents);
  }

  /** An amount as the API writes a two-place Decimal is read back exactly. */
  lemma TwoPlaceAmountExact(x: real, k: int)
    requires x * 100.0 == k as real
    ensures Amount(EdgeWithAmount(Fixed2(x))) == Ok(x)
  {
    Fixed2RoundTrip(x, k);
    var node := [("totalAmount", JStr(Fixed2(x)))];
    assert Lookup(node, "totalAmount") == Some(JStr(Fixed2(x))) by {
      assert node[0].0 == "totalAmount";
    }
    AmountOfText(node, Fixed2(x));
  }

  // ---------------------------------------------------------------------
  // The report line
  // ---------------------------------------------------------------------

  /** f"{timestamp} - Report: {total_customers} customers, {total_orders} orders, ${total_revenue:.2f} revenue." */
  function ReportMessage(stamp: string, s: Stats): string {
    stamp + ReportTag + FieldsText(s)
  }

  /** The part of the report message after " - Report: ". */
  function FieldsText(s: Stats): string {
    NatToString(s.customers) + CustomersTag + NatToString(s.orders) + OrdersTag + Fixed2(s.revenue) + RevenueTag
  }

  function ErrorMessage(stamp: string, e: string): string {
    stamp + ErrorTag + e
  }

  /** What the task writes and how it ends, given the two stamps it would take and what gathering the statistics gave. */
  function Finish(reportStamp: string, errorStamp: string, gathered: Result<Stats, string>): Run {
    match gathered
    case Ok(s) =>
      var m := ReportMessage(reportStamp, s);
      Run([m + "\n"], [Generated + m + "\n"], Returned(m))
    case Err(e) =>
      Run([ErrorMessage(errorStamp, e) + "\n"], [Failing + e + "\n"], Raised(e))
  }

  /** One call of the task, with the clock read at the report and at the error, and the query's result. */
  function CrmReport(reportNow: DateTime, errorNow: DateTime, response: Response): Run
    requires Valid(reportNow) && Valid(errorNow)
  {
    Finish(IsoStamp(reportNow), IsoStamp(errorNow), Gather(response))
  }

  /** Every call appends exactly one line to the log and one to the console, and returns what it logged or re-raises what it reported. */
  lemma {:induction false} OneLinePerCall(reportNow: DateTime, errorNow: DateTime, response: Response)
    requires Valid(reportNow) && Valid(errorNow)
    ensures var run := CrmReport(reportNow, errorNow, response);
      |run.log| == 1 && |run.console| == 1
      && (run.outcome.Raised? <==> Gather(response).Err?)
      && (run.outcome.Returned? ==>
            run.log[0] == run.outcome.message + "\n" && run.console[0] == Generated + run.outcome.message + "\n")
      && (run.outcome.Raised? ==>
            run.outcome.error == Gather(response).error && StartsWith(run.log[0], IsoStamp(errorNow) + ErrorTag)
            && run.console[0] == Failing + run.outcome.error + "\n")
  {
    var run := CrmReport(reportNow, errorNow, response);
    match Gather(response)
    case Ok(s) =>
    case Err(e) =>
      var head := IsoStamp(errorNow) + ErrorTag;
      assert run.log[0] == head + (e + "\n");
      PrefixOfJoin(head, e + "\n");
  }

  /** Reads a leading run of digits as a count, with the text after it. */
  function ReadCount(s: string): Option<(nat, string)> {
    var k := DigitRun(s);
    if k == 0 then None else Some((ParseDigits(s[..k]), s[k..]))
  }

  function Expect(s: string, tag: string): Option<string> {
    if StartsWith(s, tag) then Some(s[|tag|..]) else None
  }

  /** Reads back the customer count, then what ReadOrders reads. */
  function ReadFields(r1: string): Option<Stats> {
    match ReadCount(r1)
    case None => None
    case Some((c, r2)) =>
      match Expect(r2, CustomersTag)
      case None => None
      case Some(r3) =>
        match ReadOrders(r3)
        case None => None
        case Some((o, x)) => Some(Stats(c, o, x))
  }

  /** Reads back the order count, then what ReadRevenue reads. */
  function ReadOrders(r3: string): Option<(nat, real)> {
    match ReadCount(r3)
    case None => None
    case Some((o, r4)) =>
      match Expect(r4, OrdersTag)
      case None => None
      case Some(r5) =>
        match ReadRevenue(r5)
        case None => None
        case Some(x) => Some((o, x))
  }

  /** Reads back the amount before the closing " revenue.". */
  function ReadRevenue(r5: string): Option<real> {
    if |r5| < |RevenueTag| || r5[|r5| - |RevenueTag|..] != RevenueTag then None
    else ParseDecimal(r5[..|r5| - |RevenueTag|])
  }

  /** Reads back the time, the counts and the revenue of a report message; None for text of any other shape. */
  function ReadReport(m: string): Option<(DateTime, Stats)> {
    if |m| < 19 then None
    else
      match ParseIsoStamp(m[..19])
      case None => None
      case Some(t) =>
        match Expect(m[19..], ReportTag)
        case None => None
        case Some(r1) =>
          match ReadFields(r1)
          case None => None
          case Some(s) => Some((t, s))
  }

  lemma ReadCountOf(n: nat, rest: string)
    requires rest != [] && !IsDigit(rest[0])
    ensures ReadCount(NatToString(n) + rest) == Some((n, rest))
  {
    var d := NatToString(n);
    DigitRunOfDigits(d, rest);
    assert (d + rest)[..|d|] == d;
    assert (d + rest)[|d|..] == rest;
    NatToStringRoundTrip(n);
  }

  lemma ExpectOf(tag: string, rest: string)
    ensures Expect(tag + rest, tag) == Some(rest)
  {
    PrefixOfJoin(tag, rest);
  }

  lemma RevenueRoundTrip(x: real, cents: int)
    requires x * 100.0 == cents as real
    ensures ReadRevenue(Fixed2(x) + RevenueTag) == Some(x)
  {
    var r5 := Fixed2(x) + RevenueTag;
    assert r5[|r5| - |RevenueTag|..] == RevenueTag;
    assert r5[..|r5| - |RevenueTag|] == Fixed2(x);
    Fixed2RoundTrip(x, cents);
  }

  lemma OrdersRoundTrip(o: nat, x: real, cents: int)
    requires x * 100.0 == cents as real
    ensures ReadOrders(NatToString(o) + (OrdersTag + (Fixed2(x) + RevenueTag))) == Some((o, x))
  {
    ReadCountOf(o, OrdersTag + (Fixed2(x) + RevenueTag));
    ExpectOf(OrdersTag, Fixed2(x) + RevenueTag);
    RevenueRoundTrip(x, cents);
  }

  lemma FieldsRoundTrip(s: Stats, cents: int)
    requires s.revenue * 100.0 == cents as real
    ensures ReadFields(FieldsText(s)) == Some(s)
  {
    var r3 := NatToString(s.orders) + (OrdersTag + (Fixed2(s.revenue) + RevenueTag));
    assert FieldsText(s) == NatToString(s.customers) + (CustomersTag + r3);
    ReadCountOf(s.customers, CustomersTag + r3);
    ExpectOf(CustomersTag, r3);
    OrdersRoundTrip(s.orders, s.revenue, cents);
  }

  lemma StampedRoundTrip(stamp: string, now: DateTime, s: Stats, cents: int)
    requires |stamp| == 19 && ParseIsoStamp(stamp) == Some(now) && s.revenue * 100.0 == cents as real
    ensures ReadReport(ReportMessage(stamp, s)) == Some((now, s))
  {
    FieldsRoundTrip(s, cents);
    ReadStamped(stamp, now, FieldsText(s), s);
  }

  lemma ReadStamped(stamp: string, now: DateTime, fields: string, s: Stats)
    requires |stamp| == 19 && ParseIsoStamp(stamp) == Some(now) && ReadFields(fields) == Some(s)
    ensures ReadReport(stamp + ReportTag + fields) == Some((now, s))
  {
    Assoc(stamp, ReportTag, fields);
    Expected(stamp, now, fields, s);
  }

  lemma Expected(stamp: string, now: DateTime, fields: string, s: Stats)
    requires |stamp| == 19 && ParseIsoStamp(stamp) == Some(now) && ReadFields(fields) == Some(s)
    ensures ReadReport(stamp + (ReportTag + fields)) == Some((now, s))
  {
    PrefixOfJoin(stamp, ReportTag + fields);
    ExpectOf(ReportTag, fields);
  }

  /**
   * The report message determines the instant it was stamped with, both
   * counts and, for a revenue of whole cents, the revenue.
   */
  lemma ReportRoundTrip(now: DateTime, s: Stats, cents: int)
    requires Valid(now) && s.revenue * 100.0 == cents as real
    ensures ReadReport(ReportMessage(IsoStamp(now), s)) == Some((now, s))
  {
    IsoStampRoundTrip(now);
    StampedRoundTrip(IsoStamp(now), now, s, cents);
  }

  /** With no order edges the report states a revenue of $0.00. */
  lemma NoOrdersReportZeroRevenue(stamp: string, c: nat)
    ensures ReportMessage(stamp, Stats(c, 0, Revenue([]).value))
      == stamp + ReportTag + NatToString(c) + " customers, 0 orders, $0.00 revenue."
  {
    assert Revenue([]) == Ok(0.0);
    ZeroFieldsText(c);
    Assoc(stamp + ReportTag, NatToString(c), " customers, 0 orders, $0.00 revenue.");
  }

  lemma ZeroFieldsText(c: nat)
    ensures FieldsText(Stats(c, 0, 0.0)) == NatToString(c) + " customers, 0 orders, $0.00 revenue."
  {
    Fixed2OfZero();
    assert NatToString(0) == "0";
    var n := NatToString(c);
    Join6(n, CustomersTag, "0", OrdersTag, "0.00", RevenueTag);
    ZeroTail();
  }

  lemma ZeroTail()
    ensures CustomersTag + "0" + OrdersTag + "0.00" + RevenueTag == " customers, 0 orders, $0.00 revenue."
  {
  }

  lemma Join6(a: string, b: string, c: string, d: string, e: string, f: string)
    ensures a + b + c + d + e + f == a + (b + c + d + e + f)
  {
    Assoc(a, b, c);
    Assoc(a, b + c, d);
    Assoc(a, b + c + d, e);
    Assoc(a, b + c + d + e, f);
  }

  // ---------------------------------------------------------------------
  // The task
  // ---------------------------------------------------------------------

  /**
   * generate_crm_report. The clock readings and the query's result are
   * parameters; the log file and the console are text sinks.
   */
  method GenerateCrmReport(reportNow: DateTime, errorNow: DateTime, response: Response,
                           log: Sinks.TextSink, console: Sinks.TextSink) returns (outcome: Outcome)
    requires Valid(reportNow) && Valid(errorNow) && log != console
    modifies log, console
    ensures var run := CrmReport(reportNow, errorNow, response);
      log.writes == old(log.writes) + run.log && console.writes == old(console.writes) + run.console
      && outcome == run.outcome
  {
    var gathered := GatherStats(response);
    match gathered
    case Ok(s) =>
      var message := ReportMessage(IsoStamp(reportNow), s);
      log.Write(message + "\n");
      console.Print(Generated + message);
      outcome := Returned(message);
    case Err(e) =>
      log.Write(ErrorMessage(IsoStamp(errorNow), e) + "\n");
      console.Print(Failing + e);
      outcome := Raised(e);
  }

  /** The statistics step of the task, running the revenue loop. */
  method GatherStats(response: Response) returns (r: Result<Stats, string>)
    ensures r == Gather(response)
  {
    if response.Failed? {
      return Err(response.message);
    }
    var data := response.data;
    var customers := Edges(data, "allCustomers");
    if customers.Err? {
      return Err(customers.error);
    }
    var c := Len(customers.value);
    if c.Err? {
      return Err(c.error);
    }
    var orders := Edges(data, "allOrders");
    if orders.Err? {
      return Err(orders.error);
    }
    var o := Len(orders.value);
    if o.Err? {
      return Err(o.error);
    }
    var items := Iterate(orders.value);
    if items.Err? {
      return Err(items.error);
    }
    var revenue := SumRevenue(items.value);
    if revenue.Err? {
      return Err(revenue.error);
    }
    return Ok(Stats(c.value, o.value, revenue.value));
  }
}
