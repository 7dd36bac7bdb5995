/** What a broker's record of an order may be taken to mean
    (apps/api/app/execution/broker_record.py and acknowledgement.py). */
module BrokerRecord {
  import opened Decimals
  import opened Outcomes
  import opened PaperPolicy

  datatype Json =
    | Null
    | Bool(b: bool)
    | Int(i: int)
    | Float(x: real)
    | NotFinite
    | Str(s: string)
    | List(items: seq<Json>)
    | Obj(fields: map<string, Json>)

  /** How text is read: trimming, letter case, numerals, times, and str() of other values. All
      results hold for every choice of these. */
  datatype Text = Text(
    strip: string -> string, upper: string -> string, lower: string -> string,
    numeral: string -> Option<real>, time: Json -> Option<int>, show: Json -> string)

  const SMALLEST_STORED_PRICE: real := 0.00000001
  const PRICE_TOO_LARGE_TO_STORE: real := 1000000000000.0
  const MAX_BROKER_ORDER_ID_LENGTH := 100
  // quantize gives up on a result of more than 28 digits
  const TOO_MANY_UNITS: int := 10000000000000000000000000000

  /** An answer, or the exception that refuses it. */
  datatype Trust<+T> =
    | Trusted(value: T)
    | Untrusted(reason: string, lacksDetail: bool, brokerStatus: Option<string>, filled: Option<real>)
  {
    predicate IsFailure() { Untrusted? }

    function PropagateFailure<U>(): Trust<U>
      requires Untrusted?
    {
      Untrusted(reason, lacksDetail, brokerStatus, filled)
    }

    function Extract(): T
      requires Trusted?
    {
      value
    }
  }

  /** A refusal that no other read may complete. */
  predicate Plain<T>(r: Trust<T>) {
    r.Untrusted? ==> !r.lacksDetail && r.brokerStatus.None? && r.filled.None?
  }

  function Refuse<T>(reason: string): Trust<T> { Untrusted(reason, false, None, None) }

  datatype LocalOrder = LocalOrder(brokerOrderId: string, ticker: string, side: Side, orderType: string, quantity: real)

  datatype Verdict =
    | Final(brokerStatus: string, orderStatus: string, filled: real, price: Option<real>, filledAt: Option<int>)
    | Open(brokerStatus: string)

  datatype Reported = Reported(
    status: string, filled: Option<real>, oneFill: Option<real>, price: Option<real>, filledAt: Option<int>)

  // ---------------------------------------------------------------- reading values

  function Show(t: Text, v: Json): string { if v.Str? then v.s else t.show(v) }

  function Folded(t: Text, v: Json): string { t.upper(t.strip(Show(t, v))) }

  function FiniteNumber(t: Text, v: Json): Option<real> {
    match v
    case Int(i) => Some(i as real)
    case Float(x) => Some(x)
    case Str(s) => t.numeral(t.strip(s))
    case _ => None
  }

  function UsableOrderId(t: Text, v: Json): Option<string> {
    match v
    case Int(_) => Some(t.show(v))
    case Str(s) =>
      var text := t.strip(s);
      if text != "" && |text| <= MAX_BROKER_ORDER_ID_LENGTH then Some(text) else None
    case _ => None
  }

  /** The magnitude at eight places; None when it is too large to be written so. */
  function Magnitude(x: real): (a: Option<real>)
    ensures a.Some? ==> a.value >= 0.0
  {
    HalfEvenMonotone(0.0, Abs(x) * 100000000.0);
    if HalfEven(Abs(x) * 100000000.0) >= TOO_MANY_UNITS then None else Some(Round8(Abs(x)))
  }

  type Path = seq<string>

  function At(v: Json, path: Path): Json
    decreases |path|
  {
    if path == [] then v
    else if v.Obj? && path[0] in v.fields then At(v.fields[path[0]], path[1..])
    else Null
  }

  function Values(v: Json, paths: seq<Path>): seq<Json> {
    if paths == [] then []
    else (if At(v, paths[0]).Null? then [] else [At(v, paths[0])]) + Values(v, paths[1..])
  }

  function First(v: Json, paths: seq<Path>): Json {
    var values := Values(v, paths);
    if values == [] then Null else values[0]
  }

  /** What two ways of stating a fact are compared by. */
  datatype Key = Amount(a: real) | Word(w: string)

  function KeyOf(t: Text, v: Json, number: bool): Key {
    var n := if number then FiniteNumber(t, v) else None;
    var a := if n.Some? then Magnitude(n.value) else None;
    if a.Some? then Amount(a.value) else Word(Folded(t, v))
  }

  function Stated(t: Text, v: Json, paths: seq<Path>, number: bool): (r: Trust<Json>)
    ensures Plain(r)
  {
    var values := Values(v, paths);
    if exists i :: 0 <= i < |values| && KeyOf(t, values[i], number) != KeyOf(t, values[0], number) then
      Refuse("record_contradicts_itself")
    else Trusted(if values == [] then Null else values[0])
  }

  function AmountOf(t: Text, v: Json, side: Side, what: string): (r: Trust<Option<real>>)
    ensures r.Trusted? && r.value.Some? ==> r.value.value >= 0.0
    ensures Plain(r)
  {
    if v.Null? then Trusted(None)
    else
      var signed := FiniteNumber(t, v);
      if signed.None? then Refuse(what + "_not_a_number")
      else if signed.value < 0.0 && !side.Sell? then Refuse(what + "_sign_contradicts_side")
      else
        var a := Magnitude(signed.value);
        if a.None? then Refuse(what + "_too_large") else Trusted(a)
  }

  // ---------------------------------------------------------------- one record

  const ID: seq<Path> := [["order", "id"], ["id"], ["orderId"]]
  const STATUS: seq<Path> := [["order", "status"], ["status"]]
  const TICKER: seq<Path> := [["order", "ticker"], ["ticker"], ["order", "instrument", "ticker"]]
  const SIDE: seq<Path> := [["order", "side"], ["side"]]
  const TYPE: seq<Path> := [["order", "type"], ["type"]]
  const QUANTITY: seq<Path> := [["order", "quantity"], ["quantity"], ["orderedQuantity"]]
  const FILLED: seq<Path> := [["order", "filledQuantity"], ["filledQuantity"]]
  const ONE_FILL: seq<Path> := [["fill", "quantity"]]
  const PRICE: seq<Path> := [["fill", "price"], ["filledPrice"], ["fillPrice"]]
  const FILLED_AT: seq<Path> := [["fill", "filledAt"], ["dateExecuted"]]

  const ORDER_TYPES: map<string, string> :=
    map["MARKET" := "market", "LIMIT" := "limit", "STOP" := "stop", "STOP_LIMIT" := "stop_limit"]

  const FINAL_STATUSES: map<string, string> :=
    map["FILLED" := "filled", "CANCELLED" := "cancelled", "REJECTED" := "rejected"]

  function SideName(side: Side): string { if side.Buy? then "buy" else "sell" }

  function RequireSameOrder(t: Text, v: Json, order: LocalOrder): (r: Trust<()>)
    ensures Plain(r)
  {
    if !v.Obj? then Refuse("not_an_object")
    else if !First(v, ID).Null? && UsableOrderId(t, First(v, ID)) != Some(order.brokerOrderId) then
      Refuse("order_id_differs")
    else
      var ticker :- Stated(t, v, TICKER, false);
      if !ticker.Null? && Folded(t, ticker) != t.upper(order.ticker) then Refuse("ticker_differs")
      else
        var side :- Stated(t, v, SIDE, false);
        if !side.Null? && t.lower(t.strip(Show(t, side))) != SideName(order.side) then Refuse("side_differs")
        else
          var kind :- Stated(t, v, TYPE, false);
          if !kind.Null? && Folded(t, kind) in ORDER_TYPES && ORDER_TYPES[Folded(t, kind)] != order.orderType then
            Refuse("order_type_differs")
          else
            var stated :- Stated(t, v, QUANTITY, true);
            var ordered :- AmountOf(t, stated, order.side, "quantity");
            if ordered.Some? && ordered.value != order.quantity then Refuse("quantity_differs")
            else Trusted(())
  }

  function ReadPrice(t: Text, v: Json): (r: Trust<Option<real>>)
    ensures r.Trusted? && r.value.Some? ==> 0.0 <= r.value.value < PRICE_TOO_LARGE_TO_STORE
    ensures Plain(r)
  {
    var stated :- Stated(t, v, PRICE, true);
    if stated.Null? then Trusted(None)
    else
      var price := FiniteNumber(t, stated);
      if price.None? then Refuse("fill_price_not_a_number")
      else if price.value < 0.0 then Refuse("fill_price_not_positive")
      else if price.value >= PRICE_TOO_LARGE_TO_STORE then Refuse("fill_price_too_large")
      else Trusted(price)
  }

  predicate PartOk(p: Reported) {
    && (p.filled.Some? ==> p.filled.value >= 0.0)
    && (p.oneFill.Some? ==> p.oneFill.value >= 0.0)
    && (p.price.Some? ==> 0.0 <= p.price.value < PRICE_TOO_LARGE_TO_STORE)
  }

  function ReadRecord(t: Text, v: Json, order: LocalOrder): (r: Trust<Reported>)
    ensures r.Trusted? ==> PartOk(r.value)
    ensures Plain(r)
  {
    var _ :- RequireSameOrder(t, v, order);
    var price :- ReadPrice(t, v);
    var oneFill :- AmountOf(t, First(v, ONE_FILL), order.side, "filled_quantity");
    if oneFill.None? && !At(v, ["fill", "price"]).Null? then Refuse("fill_without_its_quantity")
    else
      var status :- Stated(t, v, STATUS, false);
      var stated :- Stated(t, v, FILLED, true);
      var filled :- AmountOf(t, stated, order.side, "filled_quantity");
      Trusted(Reported(if status.Str? then Folded(t, status) else "", filled, oneFill, price,
                       t.time(First(v, FILLED_AT))))
  }

  // ---------------------------------------------------------------- all records of one order

  predicate Disagree(parts: seq<Reported>) {
    exists p <- parts, q <- parts :: p.filled.Some? && q.filled.Some? && p.filled != q.filled
  }

  function StatedTotal(parts: seq<Reported>): Option<real> {
    if parts == [] then None
    else if parts[0].filled.Some? then parts[0].filled
    else StatedTotal(parts[1..])
  }

  function FillAmount(p: Reported): real { if p.oneFill.Some? then p.oneFill.value else 0.0 }

  function FillPaid(p: Reported): real {
    if p.oneFill.Some? && p.price.Some? then Times(p.oneFill.value, p.price.value) else 0.0
  }

  function Sum(parts: seq<Reported>, f: Reported -> real): real {
    if parts == [] then 0.0 else f(parts[0]) + Sum(parts[1..], f)
  }

  /** The filled amount and its price, from one record or from one record per fill. */
  function FillOf(parts: seq<Reported>): Trust<(Option<real>, Option<real>)>
    requires parts != []
  {
    var total := StatedTotal(parts);
    if Disagree(parts) then Refuse("records_disagree_on_filled_quantity")
    else if |parts| == 1 then
      if total.Some? && parts[0].oneFill.Some? && parts[0].oneFill != total then
        Refuse("fill_does_not_cover_filled_quantity")
      else Trusted((total, parts[0].price))
    else if total.None? || (exists p <- parts :: p.oneFill.None? || p.price.None?) then
      Refuse("several_records_without_their_fills")
    else if exists p <- parts :: FillAmount(p) > 0.0 && p.price.Some? && p.price.value < SMALLEST_STORED_PRICE then
      Refuse("fill_price_not_positive")
    else if Sum(parts, FillAmount) != total.value then Refuse("fills_do_not_add_up")
    else if total.value == 0.0 then Trusted((total, None))
    else Trusted((total, Some(Round8(Sum(parts, FillPaid) / total.value))))
  }

  function Latest(parts: seq<Reported>): Option<int> {
    if parts == [] then None
    else
      var rest := Latest(parts[1..]);
      if parts[0].filledAt.None? then rest
      else if rest.None? || rest.value < parts[0].filledAt.value then parts[0].filledAt
      else rest
  }

  function Judge(parts: seq<Reported>, order: LocalOrder, fromHistory: bool): Trust<Verdict>
    requires parts != []
  {
    var status := parts[0].status;
    if exists p <- parts :: p.status != status then Refuse("records_disagree_on_status")
    else if status !in FINAL_STATUSES then Trusted(Open(status))
    else
      var (filled, price) :- FillOf(parts);
      if filled.Some? && filled.value > order.quantity then Refuse("filled_quantity_exceeds_order")
      else if filled.None? then Untrusted("filled_quantity_missing", !fromHistory, Some(status), None)
      else
        var isFilled := FINAL_STATUSES[status] == "filled";
        if isFilled && filled.value == 0.0 then Refuse("filled_without_a_fill")
        else if isFilled && filled.value < order.quantity then Refuse("filled_quantity_below_order")
        else if filled.value == 0.0 then
          Trusted(Final(status, FINAL_STATUSES[status], filled.value, None, Latest(parts)))
        else if price.None? then Untrusted("fill_price_missing", !fromHistory, Some(status), filled)
        else if price.value < SMALLEST_STORED_PRICE then Refuse("fill_price_not_positive")
        else Trusted(Final(status, FINAL_STATUSES[status], filled.value, price, Latest(parts)))
  }

  function InterpretOpenOrderRead(t: Text, v: Json, order: LocalOrder): Trust<Verdict> {
    var part :- ReadRecord(t, v, order);
    Judge([part], order, false)
  }

  // ---------------------------------------------------------------- a page of history

  function Records(t: Text, items: seq<Json>, id: string): seq<Json> {
    if items == [] then []
    else
      (if items[0].Obj? && UsableOrderId(t, First(items[0], ID)) == Some(id) then [items[0]] else [])
      + Records(t, items[1..], id)
  }

  function HistoryItems(history: Json): Trust<seq<Json>> {
    var page := if history.Obj? then At(history, ["items"]) else history;
    if page.List? then Trusted(page.items) else Refuse("history_not_understood")
  }

  function ReadAll(t: Text, found: seq<Json>, order: LocalOrder): (r: Trust<seq<Reported>>)
    ensures r.Trusted? ==> |r.value| == |found| && forall p <- r.value :: PartOk(p)
  {
    if found == [] then Trusted([])
    else
      var part :- ReadRecord(t, found[0], order);
      var rest :- ReadAll(t, found[1..], order);
      Trusted([part] + rest)
  }

  function JudgeRecords(t: Text, found: seq<Json>, order: LocalOrder): Trust<Option<Verdict>> {
    if found == [] then Trusted(None)
    else
      var parts :- ReadAll(t, found, order);
      var verdict :- Judge(parts, order, true);
      if verdict.Open? then Refuse("history_record_not_final") else Trusted(Some(verdict))
  }

  function InterpretHistory(t: Text, history: Json, order: LocalOrder): Trust<Option<Verdict>> {
    var items :- HistoryItems(history);
    JudgeRecords(t, Records(t, items, order.brokerOrderId), order)
  }

  function RequireReadsAgree(incomplete: Trust<Verdict>, record: Verdict): Trust<Verdict>
    requires incomplete.Untrusted? && record.Final?
  {
    if incomplete.brokerStatus != Some(record.brokerStatus) then Refuse("reads_disagree")
    else if incomplete.filled.Some? && incomplete.filled.value != record.filled then Refuse("reads_disagree")
    else Trusted(record)
  }

  // ---------------------------------------------------------------- the immediate answer

  datatype Acknowledgement = Acknowledgement(
    brokerOrderId: string, brokerStatus: string, orderStatus: string, filled: Option<real>, price: Option<real>)

  function ReportedFill(t: Text, response: Json, side: Side): Trust<Option<real>> {
    var raw := At(response, ["filledQuantity"]);
    if raw.Null? then Trusted(None)
    else
      var signed := FiniteNumber(t, raw);
      if signed.None? then Refuse("filled_quantity_not_a_number")
      else if signed.value < 0.0 && !side.Sell? then Refuse("filled_quantity_sign_contradicts_side")
      else Trusted(Some(Abs(signed.value)))
  }

  function AckPrice(t: Text, response: Json): Trust<real> {
    var raw := At(response, ["filledPrice"]);
    if raw.Null? then Refuse("fill_price_missing")
    else
      var price := FiniteNumber(t, raw);
      if price.None? then Refuse("fill_price_not_a_number")
      else if price.value < SMALLEST_STORED_PRICE then Refuse("fill_price_not_positive")
      else Trusted(price.value)
  }

  function InterpretAcknowledgement(t: Text, response: Json, side: Side, quantity: real): Trust<Acknowledgement> {
    if !response.Obj? then Refuse("not_an_object")
    else
      var id := UsableOrderId(t, At(response, ["id"]));
      var status := if At(response, ["status"]).Str? then At(response, ["status"]).s else "";
      if id.None? then Refuse("order_id_not_usable")
      else if status == "FILLED" then
        var filled :- ReportedFill(t, response, side);
        if filled.None? then Refuse("filled_quantity_missing")
        else if filled.value == 0.0 then Refuse("filled_without_a_fill")
        else if filled.value > quantity then Refuse("filled_quantity_exceeds_order")
        else if filled.value < quantity then Refuse("filled_quantity_below_order")
        else
          var price :- AckPrice(t, response);
          Trusted(Acknowledgement(id.value, status, "filled", Some(quantity), Some(price)))
      else if status == "CANCELLED" || status == "REJECTED" then
        var filled :- ReportedFill(t, response, side);
        if filled.Some? && filled.value != 0.0 then Refuse("final_status_reports_a_fill")
        else Trusted(Acknowledgement(id.value, status, if status == "CANCELLED" then "cancelled" else "rejected", None, None))
      else Trusted(Acknowledgement(id.value, status, "accepted", None, None))
  }
}
