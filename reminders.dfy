/**
 * The order-reminder job (crm/cron_jobs/send_order_reminders.py): keep the
 * orders whose orderDate string is not less than the ISO date seven days
 * ago, and append a header, one
 * line per kept order and a total (or a "none found" sentinel) to the
 * reminders log; any exception inside the job appends an error line instead
 * and exits with status 1.
 */
module Reminders {
  import opened Results
  import opened Text
  import opened Clock
  import opened PyJson
  import opened Seqs
  import Sinks

  /**
   * seven_days_ago: the date, as YYYY-MM-DD, seven calendar days before the
   * clock reading; None where that falls before 0001-01-01 and Python raises
   * OverflowError.
   */
  function Cutoff(queryNow: DateTime): (c: Option<string>)
    requires Valid(queryNow)
    ensures c.Some? <==> DayNumber(queryNow.date) > 7
    ensures c.Some? ==> |c.value| == 10
    ensures c.Some? ==>
      exists d :: ValidDate(d) && DayNumber(d) == DayNumber(queryNow.date) - 7 && c.value == DateString(d)
  {
    SevenDaysBeforeIsSevenDaysEarlier(queryNow.date);
    match SevenDaysBefore(queryNow.date)
    case None => None
    case Some(d) => Some(DateString(d))
  }

  // ------------------------------------------------------------- filtering

  /** order.get('orderDate', '') >= seven_days_ago */
  function Retained(order: Json, cutoff: string): Result<bool, string> {
    match DictGet(order, "orderDate", JStr(""))
    case Err(e) => Err(e)
    case Ok(date) => GreaterEq(date, cutoff)
  }

  /**
   * r is xs at the positions idx, which ascend and are exactly the positions
   * whose verdict is true: each kept element once per position that keeps it.
   */
  ghost predicate KeptAt<T>(r: seq<T>, xs: seq<T>, verdicts: seq<Result<bool, string>>, idx: seq<int>)
    requires |verdicts| == |xs|
  {
    && |idx| == |r|
    && (forall j :: 0 <= j < |idx| ==> 0 <= idx[j] < |xs| && r[j] == xs[idx[j]])
    && (forall j, k :: 0 <= j < k < |idx| ==> idx[j] < idx[k])
    && (forall i :: 0 <= i < |xs| ==> (verdicts[i] == Ok(true) <==> i in idx))
  }

  /** The verdict of the date test on each order, in order. */
  function Verdicts(orders: seq<Json>, cutoff: string): (r: seq<Result<bool, string>>)
    ensures |r| == |orders| && forall i :: 0 <= i < |orders| ==> r[i] == Retained(orders[i], cutoff)
  {
    seq(|orders|, i requires 0 <= i < |orders| => Retained(orders[i], cutoff))
  }

  /**
   * The elements whose verdict is true, in their order; on the first
   * verdict, in order, that is an exception, that exception's text.
   */
  function Filter<T>(xs: seq<T>, verdicts: seq<Result<bool, string>>): (r: Result<seq<T>, string>)
    requires |verdicts| == |xs|
    ensures r.Ok? <==> forall i :: 0 <= i < |xs| ==> verdicts[i].Ok?
    ensures r.Ok? ==> exists idx :: KeptAt(r.value, xs, verdicts, idx)
    ensures r.Err? ==> exists k :: (0 <= k < |xs| && verdicts[k].Err? &&
      (forall i :: 0 <= i < k ==> verdicts[i].Ok?) && r.error == verdicts[k].error)
  {
    if xs == [] then
      assert KeptAt([], xs, verdicts, []);
      Ok([])
    else
      var n := |xs|;
      var prefix, front, x := xs[..n - 1], verdicts[..n - 1], xs[n - 1];
      assert xs == prefix + [x] && verdicts == front + [verdicts[n - 1]];
      match Filter(prefix, front)
      case Err(e) =>
        FailsInPrefix(prefix, front, x, verdicts[n - 1], xs, verdicts, e);
        Err(e)
      case Ok(kept) =>
        match verdicts[n - 1]
        case Err(e) =>
          FailsAtLast(prefix, front, x, e, xs, verdicts);
          Err(e)
        case Ok(keep) =>
          var out := if keep then kept + [x] else kept;
          KeptExtend(kept, prefix, front, x, keep, xs, verdicts, out);
          Ok(out)
  }

  /** An exception among the earlier verdicts is the first one of the whole list too. */
  lemma FailsInPrefix<T>(prefix: seq<T>, front: seq<Result<bool, string>>, x: T, v: Result<bool, string>,
                         xs: seq<T>, verdicts: seq<Result<bool, string>>, e: string)
    requires |front| == |prefix| && xs == prefix + [x] && verdicts == front + [v]
    requires exists k :: (0 <= k < |prefix| && front[k].Err? &&
      (forall i :: 0 <= i < k ==> front[i].Ok?) && e == front[k].error)
    ensures exists k :: (0 <= k < |xs| && verdicts[k].Err? &&
      (forall i :: 0 <= i < k ==> verdicts[i].Ok?) && e == verdicts[k].error)
    ensures !forall i :: 0 <= i < |xs| ==> verdicts[i].Ok?
  {
    var k :| 0 <= k < |prefix| && front[k].Err? && (forall i :: 0 <= i < k ==> front[i].Ok?) && e == front[k].error;
    assert verdicts[k] == front[k];
    assert forall i :: 0 <= i < k ==> verdicts[i] == front[i];
  }

  /** An exception in the last verdict, after none before it, is the first one. */
  lemma FailsAtLast<T>(prefix: seq<T>, front: seq<Result<bool, string>>, x: T, e: string,
                       xs: seq<T>, verdicts: seq<Result<bool, string>>)
    requires |front| == |prefix| && xs == prefix + [x] && verdicts == front + [Err(e)]
    requires forall i :: 0 <= i < |prefix| ==> front[i].Ok?
    ensures exists k :: (0 <= k < |xs| && verdicts[k].Err? &&
      (forall i :: 0 <= i < k ==> verdicts[i].Ok?) && e == verdicts[k].error)
    ensures !forall i :: 0 <= i < |xs| ==> verdicts[i].Ok?
  {
    var k := |prefix|;
    assert verdicts[k] == Err(e);
    assert forall i :: 0 <= i < k ==> verdicts[i] == front[i];
  }

  /** The positions kept from all but the last element, plus the last one when its verdict is true. */
  lemma KeptExtend<T>(kept: seq<T>, prefix: seq<T>, front: seq<Result<bool, string>>, x: T, keep: bool,
                      xs: seq<T>, verdicts: seq<Result<bool, string>>, out: seq<T>)
    requires |front| == |prefix| && xs == prefix + [x] && verdicts == front + [Ok(keep)]
    requires out == (if keep then kept + [x] else kept)
    requires forall i :: 0 <= i < |prefix| ==> front[i].Ok?
    requires exists idx :: KeptAt(kept, prefix, front, idx)
    ensures forall i :: 0 <= i < |xs| ==> verdicts[i].Ok?
    ensures exists idx :: KeptAt(out, xs, verdicts, idx)
  {
    assert forall i :: 0 <= i < |prefix| ==> verdicts[i] == front[i];
    var idx :| KeptAt(kept, prefix, front, idx);
    if keep {
      KeptAppend(kept, prefix, front, x, idx);
    } else {
      KeptSkip(kept, prefix, front, x, idx);
    }
  }

  /** One more element that passes is appended to what the filter kept, whether or not it was kept already. */
  lemma FilterPassing<T>(xs: seq<T>, verdicts: seq<Result<bool, string>>, x: T)
    requires |verdicts| == |xs| && Filter(xs, verdicts).Ok?
    ensures Filter(xs + [x], verdicts + [Ok(true)]) == Ok(Filter(xs, verdicts).value + [x])
  {
    assert (xs + [x])[..|xs|] == xs;
    assert (verdicts + [Ok(true)])[..|xs|] == verdicts;
  }

  /** The filter keeps exactly the elements whose verdict is true. */
  lemma FilterMembers<T>(xs: seq<T>, verdicts: seq<Result<bool, string>>)
    requires |verdicts| == |xs| && Filter(xs, verdicts).Ok?
    ensures forall y :: y in Filter(xs, verdicts).value ==>
      exists i :: 0 <= i < |xs| && xs[i] == y && verdicts[i] == Ok(true)
    ensures forall i :: 0 <= i < |xs| && verdicts[i] == Ok(true) ==> xs[i] in Filter(xs, verdicts).value
  {
    var idx :| KeptAt(Filter(xs, verdicts).value, xs, verdicts, idx);
    KeptMembers(Filter(xs, verdicts).value, xs, verdicts, idx);
  }

  /** The kept positions hold exactly the elements whose verdict is true. */
  lemma KeptMembers<T>(r: seq<T>, xs: seq<T>, verdicts: seq<Result<bool, string>>, idx: seq<int>)
    requires |verdicts| == |xs| && KeptAt(r, xs, verdicts, idx)
    ensures forall y :: y in r ==> exists i :: 0 <= i < |xs| && xs[i] == y && verdicts[i] == Ok(true)
    ensures forall i :: 0 <= i < |xs| && verdicts[i] == Ok(true) ==> xs[i] in r
  {
    forall y | y in r
      ensures exists i :: 0 <= i < |xs| && xs[i] == y && verdicts[i] == Ok(true)
    {
      var j :| 0 <= j < |r| && r[j] == y;
      assert idx[j] in idx;
    }
    forall i | 0 <= i < |xs| && verdicts[i] == Ok(true)
      ensures xs[i] in r
    {
      var j :| 0 <= j < |idx| && idx[j] == i;
      assert r[j] == xs[i];
    }
  }

  lemma KeptAppend<T>(kept: seq<T>, prefix: seq<T>, front: seq<Result<bool, string>>, x: T, idx: seq<int>)
    requires |front| == |prefix| && KeptAt(kept, prefix, front, idx)
    ensures KeptAt(kept + [x], prefix + [x], front + [Ok(true)], idx + [|prefix|])
  {
    var n := |prefix|;
    var xs, verdicts, out, idx' := prefix + [x], front + [Ok(true)], kept + [x], idx + [n];
    forall j | 0 <= j < |idx'|
      ensures 0 <= idx'[j] < |xs| && out[j] == xs[idx'[j]]
    {
      if j < |idx| {
        assert idx'[j] == idx[j] && out[j] == kept[j] && xs[idx[j]] == prefix[idx[j]];
      }
    }
    forall j, k | 0 <= j < k < |idx'|
      ensures idx'[j] < idx'[k]
    {
      if k < |idx| {
        assert idx'[j] == idx[j] && idx'[k] == idx[k];
      } else {
        assert idx'[j] == idx[j] < n;
      }
    }
    forall i | 0 <= i < |xs|
      ensures verdicts[i] == Ok(true) <==> i in idx'
    {
      assert i in idx' <==> i in idx || i == n;
      if i < n {
        assert verdicts[i] == front[i];
      }
    }
  }

  lemma KeptSkip<T>(kept: seq<T>, prefix: seq<T>, front: seq<Result<bool, string>>, x: T, idx: seq<int>)
    requires |front| == |prefix| && KeptAt(kept, prefix, front, idx)
    ensures KeptAt(kept, prefix + [x], front + [Ok(false)], idx)
  {
    var xs, verdicts := prefix + [x], front + [Ok(false)];
    forall j | 0 <= j < |idx|
      ensures 0 <= idx[j] < |xs| && kept[j] == xs[idx[j]]
    {
      assert xs[idx[j]] == prefix[idx[j]];
    }
    forall i | 0 <= i < |xs|
      ensures verdicts[i] == Ok(true) <==> i in idx
    {
      if i < |prefix| {
        assert verdicts[i] == front[i];
      }
    }
  }

  /**
   * recent_orders: the orders whose date passes the test, in their order; on
   * the first order, in order, whose test raises, that exception's text.
   */
  function RecentOrders(orders: seq<Json>, cutoff: string): (r: Result<seq<Json>, string>)
    ensures r.Ok? <==> forall i :: 0 <= i < |orders| ==> Retained(orders[i], cutoff).Ok?
    ensures r.Ok? ==> exists idx :: KeptAt(r.value, orders, Verdicts(orders, cutoff), idx)
    ensures r.Ok? ==> forall x :: x in r.value ==> Retained(x, cutoff) == Ok(true)
    ensures r.Ok? ==> forall i :: 0 <= i < |orders| && Retained(orders[i], cutoff) == Ok(true) ==> orders[i] in r.value
    ensures r.Err? ==> exists k :: (0 <= k < |orders| && Retained(orders[k], cutoff).Err? &&
      (forall i :: 0 <= i < k ==> Retained(orders[i], cutoff).Ok?) && r.error == Retained(orders[k], cutoff).error)
  {
    var r := Filter(orders, Verdicts(orders, cutoff));
    if r.Ok? then
      FilterMembers(orders, Verdicts(orders, cutoff));
      r
    else r
  }

  /** An order is kept exactly when it has an orderDate string that is not less than the cutoff. */
  lemma RetainedIff(order: Json, cutoff: string)
    requires cutoff != ""
    ensures Retained(order, cutoff) == Ok(true) <==>
      order.JObj? && HasKey(order.fields, "orderDate") && Lookup(order.fields, "orderDate").value.JStr? &&
      !StrLess(Lookup(order.fields, "orderDate").value.s, cutoff)
    ensures order.JObj? && !HasKey(order.fields, "orderDate") ==> Retained(order, cutoff) == Ok(false)
  {
  }

  /** The boundary is inclusive: an order dated on the cutoff day, at any time, is kept. */
  lemma CutoffDayRetained(order: Json, cutoff: string, suffix: string)
    requires order.JObj? && HasKey(order.fields, "orderDate")
    requires Lookup(order.fields, "orderDate").value == JStr(cutoff + suffix)
    ensures Retained(order, cutoff) == Ok(true)
  {
    ExtensionNotLess(cutoff, suffix);
  }

  /** The loop of lines 57-60, appending to recent_orders. */
  method SelectRecent(orders: seq<Json>, cutoff: string) returns (r: Result<seq<Json>, string>)
    ensures r == RecentOrders(orders, cutoff)
  {
    ghost var verdicts := Verdicts(orders, cutoff);
    var recent: seq<Json> := [];
    var i := 0;
    while i < |orders|
      invariant 0 <= i <= |orders|
      invariant Filter(orders[..i], verdicts[..i]) == Ok(recent)
    {
      assert orders[..i + 1][..i] == orders[..i] && verdicts[..i + 1][..i] == verdicts[..i];
      assert verdicts[i] == Retained(orders[i], cutoff);
      var date := DictGet(orders[i], "orderDate", JStr(""));
      if date.Err? {
        FilterFailsOnce(orders, verdicts, i);
        return Err(date.error);
      }
      var keep := GreaterEq(date.value, cutoff);
      if keep.Err? {
        FilterFailsOnce(orders, verdicts, i);
        return Err(keep.error);
      }
      if keep.value {
        recent := recent + [orders[i]];
      }
      i := i + 1;
    }
    assert orders[..i] == orders && verdicts[..i] == verdicts;
    return Ok(recent);
  }

  /** The filter raises the exception of the first element whose test raises. */
  lemma FilterFailsOnce<T>(xs: seq<T>, verdicts: seq<Result<bool, string>>, i: nat)
    requires |verdicts| == |xs| && i < |xs| && verdicts[i].Err?
    requires Filter(xs[..i], verdicts[..i]).Ok?
    ensures Filter(xs, verdicts) == Err(verdicts[i].error)
  {
    var r := Filter(xs, verdicts);
    assert forall j :: 0 <= j < i ==> verdicts[..i][j] == verdicts[j];
    var k :| 0 <= k < |xs| && verdicts[k].Err? && (forall j :: 0 <= j < k ==> verdicts[j].Ok?) && r.error == verdicts[k].error;
  }

  // ------------------------------------------------------------- rendering

  /** str(d.get(key, 'N/A')), for a dict d. */
  function FieldText(d: Json, key: string): Result<string, string> {
    match DictGet(d, key, JStr("N/A"))
    case Err(e) => Err(e)
    case Ok(v) => Ok(Str(v))
  }

  /** The log line for one kept order; the customer lookup raises when `customer` is not a dict. */
  function ReminderLine(order: Json): Result<string, string> {
    match FieldText(order, "id")
    case Err(e) => Err(e)
    case Ok(id) =>
      match DictGet(order, "customer", JObj([]))
      case Err(e) => Err(e)
      case Ok(customer) =>
        match FieldText(customer, "email")
        case Err(e) => Err(e)
        case Ok(email) =>
          match FieldText(order, "orderDate")
          case Err(e) => Err(e)
          case Ok(date) => Ok(LineText(id, email, date))
  }

  function LineText(id: string, email: string, date: string): string {
    "Order ID: " + id + " | Customer: " + email + " | Date: " + date + "\n"
  }

  /** A line can be written exactly for a dict whose customer, if present, is a dict. */
  lemma ReminderLineOk(order: Json)
    ensures ReminderLine(order).Ok? <==>
      order.JObj? && (HasKey(order.fields, "customer") ==> Lookup(order.fields, "customer").value.JObj?)
  {
  }

  /** Missing fields render as N/A. */
  lemma EmptyOrderRendersNA()
    ensures ReminderLine(JObj([])) == Ok(LineText("N/A", "N/A", "N/A"))
  {
    var none := JObj([]);
    assert !HasKey([], "id") && !HasKey([], "email") && !HasKey([], "orderDate") && !HasKey([], "customer");
    assert FieldText(none, "id") == Ok("N/A");
    assert FieldText(none, "email") == Ok("N/A");
    assert FieldText(none, "orderDate") == Ok("N/A");
    assert DictGet(none, "customer", none) == Ok(none);
  }

  /** A customer without an email renders as N/A too. */
  lemma CustomerWithoutEmailRendersNA()
    ensures ReminderLine(JObj([("customer", JObj([]))])) == ReminderLine(JObj([]))
  {
    var none := JObj([]);
    var one := [("customer", none)];
    assert one[0].0 == "customer";
    assert !HasKey(one, "id") && !HasKey(one, "orderDate");
    assert Lookup(one, "customer") == Some(none);
    assert FieldText(JObj(one), "id") == FieldText(none, "id");
    assert FieldText(JObj(one), "orderDate") == FieldText(none, "orderDate");
    assert DictGet(JObj(one), "customer", none) == Ok(none);
  }

  datatype Rendered = Rendered(lines: seq<string>, failure: Option<string>)

  /** The line of each kept order, or the exception its rendering raises, in order. */
  function LineResults(orders: seq<Json>): (r: seq<Result<string, string>>)
    ensures |r| == |orders| && forall i :: 0 <= i < |orders| ==> r[i] == ReminderLine(orders[i])
  {
    Map(ReminderLine, orders)
  }

  /** The lines written, in order, up to the first one whose rendering raises. */
  function RenderLines(results: seq<Result<string, string>>): (r: Rendered)
    ensures |r.lines| <= |results|
  {
    if results == [] then Rendered([], None)
    else
      var prev := RenderLines(results[..|results| - 1]);
      if prev.failure.Some? then prev
      else
        match results[|results| - 1]
        case Err(e) => Rendered(prev.lines, Some(e))
        case Ok(line) => Rendered(prev.lines + [line], None)
  }

  /**
   * The i-th line written is the i-th rendered line; writing stops at the
   * first rendering that raises, with that exception, and otherwise covers
   * every order.
   */
  lemma {:induction false} RenderLinesSpec(results: seq<Result<string, string>>)
    ensures var r := RenderLines(results);
      && (forall i :: 0 <= i < |r.lines| ==> results[i] == Ok(r.lines[i]))
      && (r.failure.None? ==> |r.lines| == |results|)
      && (r.failure.Some? ==> |r.lines| < |results| && results[|r.lines|] == Err(r.failure.value))
  {
    if results != [] {
      var n := |results|;
      var prefix := results[..n - 1];
      RenderLinesSpec(prefix);
      var prev := RenderLines(prefix);
      if prev.failure.None? && results[n - 1].Ok? {
        var lines := prev.lines + [results[n - 1].value];
        forall i | 0 <= i < |lines| ensures results[i] == Ok(lines[i]) {
          if i < n - 1 {
            assert lines[i] == prev.lines[i];
            assert prefix[i] == results[i];
          }
        }
      }
    }
  }

  /** Writing stops without a failure exactly when every rendering succeeds. */
  lemma RenderLinesClean(results: seq<Result<string, string>>)
    ensures RenderLines(results).failure.None? <==> forall i :: 0 <= i < |results| ==> results[i].Ok?
  {
    RenderLinesSpec(results);
  }

  lemma {:induction false} RenderFailsOnce(results: seq<Result<string, string>>, i: nat)
    requires i < |results| && RenderLines(results[..i]).failure.None? && results[i].Err?
    ensures RenderLines(results) == Rendered(RenderLines(results[..i]).lines, Some(results[i].error))
    decreases |results|
  {
    var n := |results|;
    if i == n - 1 {
      assert results[..n - 1] == results[..i];
    } else {
      assert results[..n - 1][..i] == results[..i];
      RenderFailsOnce(results[..n - 1], i);
    }
  }

  // ------------------------------------------------------------------ text

  /** The header line for the stamp of the run's second clock reading. */
  function Header(stamp: string): string {
    "\n[" + stamp + "] Order Reminders Processing\n"
  }

  /** '=' * 50, then the newline. */
  const Separator := "==================================================\n"
  const NoneFound := "No pending orders found in the last 7 days.\n"
  const Processed := "Order reminders processed!"

  function TotalLine(n: nat): string {
    "Total reminders: " + NatToString(n) + "\n"
  }

  /** The line closing the body: the count of kept orders, or the sentinel when none were kept. */
  function Closing(count: nat): string {
    if count == 0 then NoneFound else TotalLine(count)
  }

  function ErrorLine(stamp: string, e: string): string {
    "[" + stamp + "] ERROR: " + e + "\n"
  }

  function ConsoleError(e: string): string {
    "Error processing order reminders: " + e
  }

  // ------------------------------------------------------------------- run

  /** What one run appends to the log and prints (one element per call), and its exit status. */
  datatype Run = Run(log: seq<string>, console: seq<string>, status: nat)

  /** Everything inside the try up to the with block: the query, `allOrders` and the filter. */
  function Recent(response: Response, cutoff: string): Result<seq<Json>, string> {
    match response
    case Failed(e) => Err(e)
    case Answered(data) =>
      var orders := if HasKey(data, "allOrders") then Lookup(data, "allOrders").value else JList([]);
      match Iterate(orders)
      case Err(e) => Err(e)
      case Ok(items) => RecentOrders(items, cutoff)
  }

  function Failure(written: seq<string>, errorStamp: string, e: string): Run {
    Run(written + [ErrorLine(errorStamp, e)], [ConsoleError(e) + "\n"], 1)
  }

  /**
   * send_order_reminders with each clock reading and the query's outcome
   * given: queryNow is read for the cutoff (outside the try), logNow for the
   * header and errorNow in the handler.
   */
  function ReminderRun(queryNow: DateTime, logNow: DateTime, errorNow: DateTime, response: Response): Run
    requires Valid(queryNow) && Valid(logNow) && Valid(errorNow)
  {
    RunFrom(Cutoff(queryNow), IsoStamp(logNow), IsoStamp(errorNow), response)
  }

  /**
   * The run once the cutoff is computed (None where it overflowed) and with
   * the stamps of the header and of the error line.
   */
  function RunFrom(cutoff: Option<string>, logStamp: string, errorStamp: string, response: Response): Run {
    match cutoff
    case None => Run([], [], 1)
    case Some(c) =>
      match Recent(response, c)
      case Err(e) => Failure([], errorStamp, e)
      case Ok(recent) => ProcessRun(recent, logStamp, errorStamp)
  }

  /** The with block for the kept orders (lines 65-82) and, should a line raise, the handler. */
  function ProcessRun(recent: seq<Json>, logStamp: string, errorStamp: string): Run {
    Process(RenderLines(LineResults(recent)), |recent|, logStamp, errorStamp)
  }

  /** The with block once the lines of the `count` kept orders are rendered. */
  function Process(body: Rendered, count: nat, logStamp: string, errorStamp: string): Run {
    var head := [Header(logStamp), Separator];
    match body.failure
    case Some(e) => Failure(head + body.lines, errorStamp, e)
    case None => Run(head + body.lines + [Closing(count)], [Processed + "\n"], 0)
  }

  /** The run returns normally: the cutoff exists, nothing in the query or the filter raises, and every line is written. */
  predicate RunsClean(cutoff: Option<string>, response: Response) {
    && cutoff.Some?
    && match Recent(response, cutoff.value)
       case Err(_) => false
       case Ok(recent) => RenderLines(LineResults(recent)).failure.None?
  }

  /** A run is clean exactly when the cutoff exists, the query and the filter succeed, and every kept order renders. */
  lemma RunsCleanIff(cutoff: Option<string>, response: Response)
    ensures RunsClean(cutoff, response) <==>
      && cutoff.Some?
      && Recent(response, cutoff.value).Ok?
      && forall i :: 0 <= i < |Recent(response, cutoff.value).value| ==>
           ReminderLine(Recent(response, cutoff.value).value[i]).Ok?
  {
    if cutoff.Some? && Recent(response, cutoff.value).Ok? {
      RenderLinesClean(LineResults(Recent(response, cutoff.value).value));
    }
  }

  /** Exit status 0 exactly for a clean run, 1 otherwise. */
  lemma ReminderRunStatus(cutoff: Option<string>, logStamp: string, errorStamp: string, response: Response)
    ensures RunFrom(cutoff, logStamp, errorStamp, response).status == (if RunsClean(cutoff, response) then 0 else 1)
  {
    if cutoff.Some? && Recent(response, cutoff.value).Ok? {
      RenderLinesClean(LineResults(Recent(response, cutoff.value).value));
    }
  }

  /** The writes of a clean run, as one sequence. */
  lemma CleanRunIs(cutoff: Option<string>, logStamp: string, errorStamp: string, response: Response)
    requires RunsClean(cutoff, response)
    ensures var recent := Recent(response, cutoff.value).value;
      RunFrom(cutoff, logStamp, errorStamp, response) ==
        Run([Header(logStamp), Separator] + RenderLines(LineResults(recent)).lines + [Closing(|recent|)], [Processed + "\n"], 0)
  {
    RenderLinesClean(LineResults(Recent(response, cutoff.value).value));
  }

  lemma Layout(head: seq<string>, lines: seq<string>, last: string)
    requires |head| == 2
    ensures var log := head + lines + [last];
      && |log| == |lines| + 3 && log[0] == head[0] && log[1] == head[1]
      && (forall i :: 0 <= i < |lines| ==> log[i + 2] == lines[i])
      && log[|lines| + 2] == last
  {
  }

  /**
   * A clean run appends the header, the separator, one line per kept order
   * in order, then the total if any order was kept and the sentinel if none.
   */
  lemma CleanRunLog(cutoff: Option<string>, logStamp: string, errorStamp: string, response: Response)
    requires RunsClean(cutoff, response)
    ensures var recent := Recent(response, cutoff.value).value;
      var run := RunFrom(cutoff, logStamp, errorStamp, response);
      && |run.log| == |recent| + 3
      && run.log[0] == Header(logStamp) && run.log[1] == Separator
      && (forall i :: 0 <= i < |recent| ==> Ok(run.log[i + 2]) == ReminderLine(recent[i]))
      && run.log[|recent| + 2] == (if recent == [] then NoneFound else TotalLine(|recent|))
      && run.console == [Processed + "\n"]
  {
    var recent := Recent(response, cutoff.value).value;
    var lines := RenderLines(LineResults(recent)).lines;
    CleanRunIs(cutoff, logStamp, errorStamp, response);
    RenderLinesClean(LineResults(recent));
    RenderLinesSpec(LineResults(recent));
    Layout([Header(logStamp), Separator], lines, Closing(|recent|));
  }

  /** The writes of a run that raises in the query or the filter. */
  lemma QueryFailureRunIs(cutoff: Option<string>, logStamp: string, errorStamp: string, response: Response)
    requires cutoff.Some? && Recent(response, cutoff.value).Err?
    ensures RunFrom(cutoff, logStamp, errorStamp, response) ==
      Failure([], errorStamp, Recent(response, cutoff.value).error)
  {
  }

  /** The writes of a run that raises while writing the line of a kept order. */
  lemma LineFailureRunIs(cutoff: Option<string>, logStamp: string, errorStamp: string, response: Response)
    requires cutoff.Some? && Recent(response, cutoff.value).Ok?
    requires RenderLines(LineResults(Recent(response, cutoff.value).value)).failure.Some?
    ensures var body := RenderLines(LineResults(Recent(response, cutoff.value).value));
      RunFrom(cutoff, logStamp, errorStamp, response) ==
        Failure([Header(logStamp), Separator] + body.lines, errorStamp, body.failure.value)
  {
  }

  /**
   * A run that raises ends its log output with one "[ts] ERROR: " line and
   * prints one error message, keeping the header and the lines written
   * before the failure. An OverflowError in the cutoff escapes before the
   * try: nothing is written.
   */
  lemma FailedRunLog(cutoff: Option<string>, logStamp: string, errorStamp: string, response: Response)
    requires !RunsClean(cutoff, response)
    ensures var run := RunFrom(cutoff, logStamp, errorStamp, response);
      && (cutoff.None? ==> run.log == [] && run.console == [])
      && (cutoff.Some? ==>
            && |run.log| >= 1 && StartsWith(run.log[|run.log| - 1], "[" + errorStamp + "] ERROR: ")
            && |run.console| == 1 && StartsWith(run.console[0], "Error processing order reminders: "))
      && (cutoff.Some? && Recent(response, cutoff.value).Ok? ==>
            |run.log| >= 3 && run.log[0] == Header(logStamp) && run.log[1] == Separator)
  {
    if cutoff.Some? {
      var recent := Recent(response, cutoff.value);
      if recent.Err? {
        QueryFailureRunIs(cutoff, logStamp, errorStamp, response);
        FailureShape([], errorStamp, recent.error);
      } else {
        var body := RenderLines(LineResults(recent.value));
        var head := [Header(logStamp), Separator];
        LineFailureRunIs(cutoff, logStamp, errorStamp, response);
        FailureShape(head + body.lines, errorStamp, body.failure.value);
        assert (head + body.lines)[0] == head[0] && (head + body.lines)[1] == head[1];
      }
    }
  }

  /** A failed run keeps what was written, then adds one error line to the log and one message to the console. */
  lemma FailureShape(written: seq<string>, errorStamp: string, e: string)
    ensures var run := Failure(written, errorStamp, e);
      && |run.log| == |written| + 1 && (forall i :: 0 <= i < |written| ==> run.log[i] == written[i])
      && StartsWith(run.log[|written|], "[" + errorStamp + "] ERROR: ")
      && |run.console| == 1 && StartsWith(run.console[0], "Error processing order reminders: ")
  {
    FailureLayout(written, errorStamp, e);
    ErrorTextsStart(errorStamp, e);
  }

  lemma FailureLayout(written: seq<string>, errorStamp: string, e: string)
    ensures var run := Failure(written, errorStamp, e);
      && run.log[|run.log| - 1] == ErrorLine(errorStamp, e) && run.console == [ConsoleError(e) + "\n"]
      && run.log[..|written|] == written
  {
  }

  lemma ErrorTextsStart(stamp: string, e: string)
    ensures StartsWith(ErrorLine(stamp, e), "[" + stamp + "] ERROR: ")
    ensures StartsWith(ConsoleError(e) + "\n", "Error processing order reminders: ")
  {
    var head := "[" + stamp + "] ERROR: ";
    assert ErrorLine(stamp, e) == head + (e + "\n");
    PrefixOfJoin(head, e + "\n");
    PrefixOfJoin("Error processing order reminders: ", e + "\n");
  }

  /**
   * send_order_reminders: nothing already in the log is removed; the run
   * appends and prints what ReminderRun says and returns its exit status.
   */
  method SendOrderReminders(queryNow: DateTime, logNow: DateTime, errorNow: DateTime, response: Response,
                            log: Sinks.TextSink, console: Sinks.TextSink) returns (status: nat)
    requires Valid(queryNow) && Valid(logNow) && Valid(errorNow) && log != console
    modifies log, console
    ensures var run := ReminderRun(queryNow, logNow, errorNow, response);
      && log.writes == old(log.writes) + run.log
      && console.writes == old(console.writes) + run.console
      && status == run.status
  {
    var seven := Cutoff(queryNow);
    status := RunWithCutoff(seven, IsoStamp(logNow), IsoStamp(errorNow), response, log, console);
  }

  /** The job once seven_days_ago is computed, or failed to be. */
  method RunWithCutoff(cutoff: Option<string>, logStamp: string, errorStamp: string, response: Response,
                       log: Sinks.TextSink, console: Sinks.TextSink) returns (status: nat)
    requires log != console
    modifies log, console
    ensures var run := RunFrom(cutoff, logStamp, errorStamp, response);
      && log.writes == old(log.writes) + run.log
      && console.writes == old(console.writes) + run.console
      && status == run.status
  {
    if cutoff.None? {
      return 1;
    }
    var recent := QueryRecent(response, cutoff.value);
    if recent.Err? {
      QueryFailureRunIs(cutoff, logStamp, errorStamp, response);
      log.Write(ErrorLine(errorStamp, recent.error));
      console.Print(ConsoleError(recent.error));
      return 1;
    }
    status := ProcessRecent(recent.value, logStamp, errorStamp, log, console);
  }

  method ProcessRecent(kept: seq<Json>, logStamp: string, errorStamp: string,
                       log: Sinks.TextSink, console: Sinks.TextSink) returns (status: nat)
    requires log != console
    modifies log, console
    ensures var run := Process(RenderLines(LineResults(kept)), |kept|, logStamp, errorStamp);
      && log.writes == old(log.writes) + run.log
      && console.writes == old(console.writes) + run.console
      && status == run.status
  {
    var failure := WriteLines(kept, logStamp, log);
    status := Conclude(failure, RenderLines(LineResults(kept)), |kept|, logStamp, errorStamp, old(log.writes), log, console);
  }

  /** Lines 78-89: after the order lines, the error line and message, or the closing line and the success message. */
  method Conclude(failure: Option<string>, ghost body: Rendered, count: nat, logStamp: string, errorStamp: string,
                  ghost before: seq<string>, log: Sinks.TextSink, console: Sinks.TextSink) returns (status: nat)
    requires log != console
    requires failure == body.failure
    requires log.writes == before + [Header(logStamp), Separator] + body.lines
    modifies log, console
    ensures var run := Process(body, count, logStamp, errorStamp);
      && log.writes == before + run.log
      && console.writes == old(console.writes) + run.console
      && status == run.status
  {
    if failure.Some? {
      FailureLayout([Header(logStamp), Separator] + body.lines, errorStamp, failure.value);
      log.Write(ErrorLine(errorStamp, failure.value));
      console.Print(ConsoleError(failure.value));
      return 1;
    }
    if count != 0 {
      log.Write(TotalLine(count));
    } else {
      log.Write(NoneFound);
    }
    ProcessClean(before, body, count, logStamp, errorStamp);
    console.Print(Processed);
    return 0;
  }

  lemma ProcessClean(before: seq<string>, body: Rendered, count: nat, logStamp: string, errorStamp: string)
    requires body.failure.None?
    ensures before + [Header(logStamp), Separator] + body.lines + [Closing(count)] ==
      before + Process(body, count, logStamp, errorStamp).log
    ensures Process(body, count, logStamp, errorStamp).console == [Processed + "\n"]
    ensures Process(body, count, logStamp, errorStamp).status == 0
  {
  }

  /** Lines 66-76: the header, the separator, then one write per kept order, stopping at the first one that raises. */
  method WriteLines(kept: seq<Json>, logStamp: string, log: Sinks.TextSink) returns (failure: Option<string>)
    modifies log
    ensures log.writes == old(log.writes) + [Header(logStamp), Separator] + RenderLines(LineResults(kept)).lines
    ensures failure == RenderLines(LineResults(kept)).failure
  {
    ghost var before := old(log.writes) + [Header(logStamp), Separator];
    log.Write(Header(logStamp));
    log.Write(Separator);
    var i := 0;
    ghost var body := RenderLines(LineResults(kept[..i]));
    while i < |kept|
      invariant 0 <= i <= |kept|
      invariant body == RenderLines(LineResults(kept[..i]))
      invariant body.failure.None? && log.writes == before + body.lines
    {
      var line := ReminderLine(kept[i]);
      if line.Err? {
        LineFailsAt(kept, i);
        return Some(line.error);
      }
      LineStep(kept, i, line.value);
      log.Write(line.value);
      body := Rendered(body.lines + [line.value], None);
      i := i + 1;
    }
    assert kept[..i] == kept;
    return None;
  }

  lemma LineStep(kept: seq<Json>, i: nat, line: string)
    requires i < |kept| && RenderLines(LineResults(kept[..i])).failure.None? && ReminderLine(kept[i]) == Ok(line)
    ensures RenderLines(LineResults(kept[..i + 1])) == Rendered(RenderLines(LineResults(kept[..i])).lines + [line], None)
  {
    RenderMapStep(ReminderLine, kept, i, line);
  }

  lemma LineFailsAt(kept: seq<Json>, i: nat)
    requires i < |kept| && RenderLines(LineResults(kept[..i])).failure.None? && ReminderLine(kept[i]).Err?
    ensures RenderLines(LineResults(kept)) ==
      Rendered(RenderLines(LineResults(kept[..i])).lines, Some(ReminderLine(kept[i]).error))
  {
    RenderMapFails(ReminderLine, kept, i);
  }

  lemma RenderMapStep<A>(f: A -> Result<string, string>, xs: seq<A>, i: nat, line: string)
    requires i < |xs| && RenderLines(Map(f, xs[..i])).failure.None? && f(xs[i]) == Ok(line)
    ensures RenderLines(Map(f, xs[..i + 1])) == Rendered(RenderLines(Map(f, xs[..i])).lines + [line], None)
  {
    var prefix := xs[..i + 1];
    assert prefix[..i] == xs[..i];
    MapPrefix(f, prefix, i);
    var r := Map(f, prefix);
    assert r[..|r| - 1] == r[..i];
  }

  lemma RenderMapFails<A>(f: A -> Result<string, string>, xs: seq<A>, i: nat)
    requires i < |xs| && RenderLines(Map(f, xs[..i])).failure.None? && f(xs[i]).Err?
    ensures RenderLines(Map(f, xs)) == Rendered(RenderLines(Map(f, xs[..i])).lines, Some(f(xs[i]).error))
  {
    MapPrefix(f, xs, i);
    RenderFailsOnce(Map(f, xs), i);
  }

  /** The query and the filter (lines 51-60). */
  method QueryRecent(response: Response, cutoff: string) returns (r: Result<seq<Json>, string>)
    ensures r == Recent(response, cutoff)
  {
    match response {
      case Failed(e) =>
        r := Err(e);
      case Answered(data) =>
        var orders := DictGet(JObj(data), "allOrders", JList([])).value;
        var items := Iterate(orders);
        if items.Err? {
          r := Err(items.error);
        } else {
          r := SelectRecent(items.value, cutoff);
        }
    }
  }
}
