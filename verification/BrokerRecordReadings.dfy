/** What a broker's record says, field by field, and exactly when it is believed. */
module BrokerRecordReadings {
  import opened Decimals
  import opened Outcomes
  import opened PaperPolicy
  import opened BrokerRecord
  import opened BrokerRecordProofs

  // ---------------------------------------------------------------- fields

  /** A path leads field by field, and nowhere through anything that is not an object. */
  lemma AtLeads(v: Json, name: string, rest: Path)
    ensures At(v, []) == v
    ensures At(v, [name] + rest) == if v.Obj? && name in v.fields then At(v.fields[name], rest) else Null
  {
    assert ([name] + rest)[1..] == rest;
  }

  lemma {:induction false} ValuesAre(v: Json, paths: seq<Path>)
    ensures forall x <- Values(v, paths) :: !x.Null? && exists p <- paths :: At(v, p) == x
    ensures forall p <- paths :: !At(v, p).Null? ==> At(v, p) in Values(v, paths)
  {
    hide At;
    if paths != [] {
      ValuesAre(v, paths[1..]);
      assert paths == [paths[0]] + paths[1..];
      forall x <- Values(v, paths) ensures !x.Null? && exists p <- paths :: At(v, p) == x {
        if x in Values(v, paths[1..]) {
          var p :| p in paths[1..] && At(v, p) == x;
          assert p in paths;
        } else {
          assert x == At(v, paths[0]) && paths[0] in paths;
        }
      }
    }
  }

  /** The first of several ways of stating a fact that is used stands. */
  lemma {:induction false} FirstStands(v: Json, paths: seq<Path>, i: nat)
    requires i < |paths| && !At(v, paths[i]).Null? && forall j :: 0 <= j < i ==> At(v, paths[j]).Null?
    ensures First(v, paths) == At(v, paths[i]) && Values(v, paths) != []
  {
    hide At;
    if i > 0 {
      FirstStands(v, paths[1..], i - 1);
    }
  }

  lemma {:induction false} NothingStated(v: Json, paths: seq<Path>)
    requires forall p <- paths :: At(v, p).Null?
    ensures First(v, paths) == Null && Values(v, paths) == []
  {
    hide At;
    if paths != [] {
      NothingStated(v, paths[1..]);
      assert paths == [paths[0]] + paths[1..];
    }
  }

  /** Every way the record uses to state a fact says the same, to the word or to the amount. */
  ghost predicate Consistent(t: Text, v: Json, paths: seq<Path>, number: bool) {
    forall p <- paths, q <- paths :: !At(v, p).Null? && !At(v, q).Null? ==>
      KeyOf(t, At(v, p), number) == KeyOf(t, At(v, q), number)
  }

  lemma StatedExactlyWhen(t: Text, v: Json, paths: seq<Path>, number: bool)
    ensures Stated(t, v, paths, number) == if Consistent(t, v, paths, number) then Trusted(First(v, paths))
                                           else Refuse("record_contradicts_itself")
  {
    hide At, KeyOf, Values;
    ValuesAre(v, paths);
    if Consistent(t, v, paths, number) {
      ConsistentIsStated(t, v, paths, number);
    } else {
      ContradictionIsRefused(t, v, paths, number);
    }
  }

  lemma ConsistentIsStated(t: Text, v: Json, paths: seq<Path>, number: bool)
    requires Consistent(t, v, paths, number)
    ensures Stated(t, v, paths, number) == Trusted(First(v, paths))
  {
    hide At, KeyOf, Values;
    ValuesAre(v, paths);
    var values := Values(v, paths);
    forall i | 0 <= i < |values| ensures KeyOf(t, values[i], number) == KeyOf(t, values[0], number) {
      assert values[i] in values && values[0] in values;
      var p :| p in paths && At(v, p) == values[i];
      var q :| q in paths && At(v, q) == values[0];
    }
  }

  lemma ContradictionIsRefused(t: Text, v: Json, paths: seq<Path>, number: bool)
    requires !Consistent(t, v, paths, number)
    ensures Stated(t, v, paths, number) == Refuse("record_contradicts_itself")
  {
    hide At, KeyOf, Values;
    ValuesAre(v, paths);
    var values := Values(v, paths);
    var p, q :| p in paths && q in paths && !At(v, p).Null? && !At(v, q).Null?
                && KeyOf(t, At(v, p), number) != KeyOf(t, At(v, q), number);
    var i :| 0 <= i < |values| && values[i] == At(v, p);
    var k :| 0 <= k < |values| && values[k] == At(v, q);
    assert KeyOf(t, values[i], number) != KeyOf(t, values[0], number)
        || KeyOf(t, values[k], number) != KeyOf(t, values[0], number);
  }

  /** What stands for a number: a number, or text that is the numeral of one. */
  lemma NumberExactlyWhen(t: Text, v: Json, x: real)
    ensures FiniteNumber(t, v) == Some(x) <==>
              || (v.Int? && x == v.i as real) || (v.Float? && x == v.x)
              || (v.Str? && t.numeral(t.strip(v.s)) == Some(x))
  {}

  /** What stands for an order's id: a whole number as it is written, or text of at most a hundred
      characters, not blank. */
  lemma IdUsableExactlyWhen(t: Text, v: Json, id: string)
    ensures UsableOrderId(t, v) == Some(id) <==>
              || (v.Int? && id == t.show(v))
              || (v.Str? && id == t.strip(v.s) && 1 <= |id| <= 100)
  {}

  /** Two figures say the same when they are the same amount at eight places, whatever their
      signs; two texts, or figures too large to be written so, when they are the same word. */
  lemma SaysTheSameExactlyWhen(t: Text, v: Json, w: Json)
    ensures var a, b := FiniteNumber(t, v), FiniteNumber(t, w);
            var written := (x: Option<real>) => x.Some? && HalfEven(Abs(x.value) * 100000000.0) < 10000000000000000000000000000;
            && (KeyOf(t, v, false) == KeyOf(t, w, false) <==> Folded(t, v) == Folded(t, w))
            && (written(a) && written(b) ==>
                  (KeyOf(t, v, true) == KeyOf(t, w, true) <==> Round8(Abs(a.value)) == Round8(Abs(b.value))))
            && (!written(a) && !written(b) ==>
                  (KeyOf(t, v, true) == KeyOf(t, w, true) <==> Folded(t, v) == Folded(t, w)))
            && (written(a) != written(b) ==> KeyOf(t, v, true) != KeyOf(t, w, true))
            && Folded(t, v) == t.upper(t.strip(if v.Str? then v.s else t.show(v)))
  {
    hide HalfEven, Round8, FiniteNumber;
  }

  /** A number of a record, without its sign where a sale may carry one. */
  ghost predicate IsAmount(t: Text, v: Json, side: Side, amount: Option<real>) {
    if v.Null? then amount.None?
    else
      && FiniteNumber(t, v).Some?
      && var x := FiniteNumber(t, v).value;
         && (x >= 0.0 || side == Sell)
         && HalfEven(Abs(x) * 100000000.0) < 10000000000000000000000000000
         && amount == Some(Round8(Abs(x)))
  }

  lemma AmountExactlyWhen(t: Text, v: Json, side: Side, what: string, amount: Option<real>)
    ensures AmountOf(t, v, side, what) == Trusted(amount) <==> IsAmount(t, v, side, amount)
  {
    hide HalfEven, Round8, FiniteNumber;
  }

  // ---------------------------------------------------------------- one record

  const IDS: seq<Path> := [["order", "id"], ["id"], ["orderId"]]
  const STATUSES: seq<Path> := [["order", "status"], ["status"]]
  const TICKERS: seq<Path> := [["order", "ticker"], ["ticker"], ["order", "instrument", "ticker"]]
  const SIDES: seq<Path> := [["order", "side"], ["side"]]
  const TYPES: seq<Path> := [["order", "type"], ["type"]]
  const QUANTITIES: seq<Path> := [["order", "quantity"], ["quantity"], ["orderedQuantity"]]
  const FILLED_QUANTITIES: seq<Path> := [["order", "filledQuantity"], ["filledQuantity"]]
  const FILL_PRICES: seq<Path> := [["fill", "price"], ["filledPrice"], ["fillPrice"]]
  const FILL_TIMES: seq<Path> := [["fill", "filledAt"], ["dateExecuted"]]

  /** Nothing the record states is about another order. */
  ghost predicate SameOrder(t: Text, v: Json, order: LocalOrder) {
    && v.Obj?
    && (First(v, IDS).Null? || UsableOrderId(t, First(v, IDS)) == Some(order.brokerOrderId))
    && Consistent(t, v, TICKERS, false) && Consistent(t, v, SIDES, false) && Consistent(t, v, TYPES, false)
    && Consistent(t, v, QUANTITIES, true)
    && (First(v, TICKERS).Null? || Folded(t, First(v, TICKERS)) == t.upper(order.ticker))
    && (First(v, SIDES).Null?
        || t.lower(t.strip(Show(t, First(v, SIDES)))) == (if order.side.Buy? then "buy" else "sell"))
    && (First(v, TYPES).Null?
        || var kind := Folded(t, First(v, TYPES));
           && (kind == "MARKET" ==> order.orderType == "market") && (kind == "LIMIT" ==> order.orderType == "limit")
           && (kind == "STOP" ==> order.orderType == "stop") && (kind == "STOP_LIMIT" ==> order.orderType == "stop_limit"))
    && (First(v, QUANTITIES).Null? || IsAmount(t, First(v, QUANTITIES), order.side, Some(order.quantity)))
  }

  lemma SameOrderExactlyWhen(t: Text, v: Json, order: LocalOrder)
    ensures RequireSameOrder(t, v, order).Trusted? <==> SameOrder(t, v, order)
  {
    hide First, FiniteNumber, Folded, Show, Consistent, Stated, AmountOf, UsableOrderId;
    StatedExactlyWhen(t, v, TICKERS, false);
    StatedExactlyWhen(t, v, SIDES, false);
    StatedExactlyWhen(t, v, TYPES, false);
    StatedExactlyWhen(t, v, QUANTITIES, true);
    var quantity := First(v, QUANTITIES);
    AmountExactlyWhen(t, quantity, order.side, "quantity", None);
    AmountExactlyWhen(t, quantity, order.side, "quantity", Some(order.quantity));
    var read := AmountOf(t, quantity, order.side, "quantity");
    if read.Trusted? {
      AmountExactlyWhen(t, quantity, order.side, "quantity", read.value);
    }
  }

  /** What the record says: its status, how much is filled in all, how much in this one fill, at
      what price and when, each from its own fields. */
  ghost predicate Says(t: Text, v: Json, order: LocalOrder, p: Reported) {
    && SameOrder(t, v, order)
    && Consistent(t, v, FILL_PRICES, true) && Consistent(t, v, STATUSES, false) && Consistent(t, v, FILLED_QUANTITIES, true)
    && (if First(v, FILL_PRICES).Null? then p.price.None?
        else p.price.Some? && p.price == FiniteNumber(t, First(v, FILL_PRICES)) && 0.0 <= p.price.value < 1000000000000.0)
    && IsAmount(t, First(v, [["fill", "quantity"]]), order.side, p.oneFill)
    && IsAmount(t, First(v, FILLED_QUANTITIES), order.side, p.filled)
    && (p.oneFill.None? ==> At(v, ["fill", "price"]).Null?)
    && p.status == (if First(v, STATUSES).Str? then t.upper(t.strip(First(v, STATUSES).s)) else "")
    && p.filledAt == t.time(First(v, FILL_TIMES))
  }

  lemma PriceExactlyWhen(t: Text, v: Json, price: Option<real>)
    ensures ReadPrice(t, v) == Trusted(price) <==>
              && Consistent(t, v, FILL_PRICES, true)
              && if First(v, FILL_PRICES).Null? then price.None?
                 else price.Some? && price == FiniteNumber(t, First(v, FILL_PRICES)) && 0.0 <= price.value < 1000000000000.0
  {
    hide First, FiniteNumber, Consistent, Stated;
    StatedExactlyWhen(t, v, FILL_PRICES, true);
  }

  /** A record is believed exactly when all it states is about the order, consistent and sound,
      and it is then read for just what it says. */
  lemma RecordReadExactlyWhen(t: Text, v: Json, order: LocalOrder, p: Reported)
    ensures ReadRecord(t, v, order) == Trusted(p) <==> Says(t, v, order, p)
  {
    hide First, FiniteNumber, Consistent, Stated, AmountOf, SameOrder, RequireSameOrder, ReadPrice, IsAmount, At;
    SameOrderExactlyWhen(t, v, order);
    PriceExactlyWhen(t, v, p.price);
    StatedExactlyWhen(t, v, STATUSES, false);
    StatedExactlyWhen(t, v, FILLED_QUANTITIES, true);
    AmountExactlyWhen(t, First(v, [["fill", "quantity"]]), order.side, "filled_quantity", p.oneFill);
    AmountExactlyWhen(t, First(v, FILLED_QUANTITIES), order.side, "filled_quantity", p.filled);
  }

  // ---------------------------------------------------------------- the verdict on one record

  /** What one record of an order settles: how it ended, with what is filled of it and at what
      price. */
  ghost predicate Settles(p: Reported, order: LocalOrder, v: Verdict) {
    && v.Final? && v.brokerStatus == p.status && v.filledAt == p.filledAt
    && p.filled == Some(v.filled) && v.filled <= order.quantity
    && (p.oneFill.Some? ==> p.oneFill == p.filled)
    && (|| (p.status == "FILLED" && v.orderStatus == "filled" && v.filled == order.quantity && v.filled != 0.0)
        || (p.status == "CANCELLED" && v.orderStatus == "cancelled")
        || (p.status == "REJECTED" && v.orderStatus == "rejected"))
    && (if v.filled == 0.0 then v.price.None?
        else v.price.Some? && v.price == p.price && v.price.value >= 0.00000001)
  }

  /** A record settles an order exactly when its status is final, it says how much is filled, no
      more than was ordered and all of it if it says so, in agreement with its own fill, and at
      what price if anything is; a record whose status is not final leaves it open. */
  lemma VerdictExactlyWhen(p: Reported, order: LocalOrder, fromHistory: bool, v: Verdict)
    ensures Judge([p], order, fromHistory) == Trusted(v) <==>
              || Settles(p, order, v)
              || (p.status !in {"FILLED", "CANCELLED", "REJECTED"} && v == Open(p.status))
  {
    hide Round8, Sum;
    assert [p][0] == p && [p][1..] == [];
    assert StatedTotal([]) == None && StatedTotal([p]) == p.filled;
    assert Latest([]) == None && Latest([p]) == p.filledAt;
  }

  /** The history may complete a record exactly when it is an open read of a final status that
      says nothing against the order and lacks only how much is filled, or only at what price. */
  ghost predicate Lacks(p: Reported, order: LocalOrder, brokerStatus: Option<string>, filled: Option<real>) {
    && p.status in {"FILLED", "CANCELLED", "REJECTED"} && brokerStatus == Some(p.status) && filled == p.filled
    && (p.filled.Some? ==>
          && p.price.None? && 0.0 != p.filled.value <= order.quantity
          && (p.status == "FILLED" ==> p.filled.value == order.quantity)
          && (p.oneFill.Some? ==> p.oneFill == p.filled))
  }

  lemma CompletableExactlyWhen(p: Reported, order: LocalOrder, fromHistory: bool)
    ensures var r := Judge([p], order, fromHistory);
            && (r.Untrusted? && r.lacksDetail <==> !fromHistory && Lacks(p, order, Some(p.status), p.filled))
            && (r.Untrusted? && r.lacksDetail ==> r.brokerStatus == Some(p.status) && r.filled == p.filled)
  {
    hide Round8, Sum;
    assert [p][0] == p && [p][1..] == [];
    assert StatedTotal([]) == None && StatedTotal([p]) == p.filled;
  }

  /** An order still listed as open is settled, or left open, by that one record. */
  lemma OpenReadExactlyWhen(t: Text, j: Json, order: LocalOrder, v: Verdict)
    ensures InterpretOpenOrderRead(t, j, order) == Trusted(v) <==>
              exists p: Reported ::
                Says(t, j, order, p)
                && (Settles(p, order, v) || (p.status !in {"FILLED", "CANCELLED", "REJECTED"} && v == Open(p.status)))
  {
    hide ReadRecord, Judge, Says, Settles;
    var read := ReadRecord(t, j, order);
    forall p: Reported {
      RecordReadExactlyWhen(t, j, order, p);
    }
    if read.Trusted? {
      VerdictExactlyWhen(read.value, order, false, v);
    }
  }

  /** A page with one record of the order settles it as that record does; one with none says
      nothing about it; and a record that leaves the order open is no history. */
  lemma HistoryOfOneExactlyWhen(t: Text, items: seq<Json>, order: LocalOrder, record: Json, v: Option<Verdict>)
    requires Records(t, items, order.brokerOrderId) == [record]
    ensures InterpretHistory(t, List(items), order) == Trusted(v) <==>
              v.Some? && exists p: Reported :: Says(t, record, order, p) && Settles(p, order, v.value)
  {
    hide ReadRecord, Judge, Says, Settles, Records;
    assert [record][0] == record && [record][1..] == [];
    assert ReadAll(t, [], order) == Trusted([]);
    var read := ReadRecord(t, record, order);
    forall p: Reported {
      RecordReadExactlyWhen(t, record, order, p);
    }
    if read.Trusted? {
      ReadAlone(t, record, order, read.value);
      var judged := Judge([read.value], order, true);
      if judged.Trusted? {
        VerdictExactlyWhen(read.value, order, true, judged.value);
        OpenIsNoSettlement(read.value, order, judged.value);
      }
      if v.Some? {
        VerdictExactlyWhen(read.value, order, true, v.value);
        OpenIsNoSettlement(read.value, order, v.value);
      }
    }
  }

  lemma ReadAlone(t: Text, record: Json, order: LocalOrder, p: Reported)
    requires ReadRecord(t, record, order) == Trusted(p)
    ensures ReadAll(t, [record], order) == Trusted([p])
  {
    hide ReadRecord;
    assert [record][0] == record && [record][1..] == [];
    assert ReadAll(t, [], order) == Trusted([]);
    assert [p] + [] == [p];
  }

  lemma OpenIsNoSettlement(p: Reported, order: LocalOrder, v: Verdict)
    ensures Settles(p, order, v) ==> !v.Open?
  {}

  lemma NoRecordsNoVerdict(t: Text, items: seq<Json>, order: LocalOrder)
    requires Records(t, items, order.brokerOrderId) == []
    ensures InterpretHistory(t, List(items), order) == Trusted(None)
    ensures InterpretHistory(t, Obj(map["items" := List(items)]), order) == Trusted(None)
  {
    hide Records;
    AtLeads(Obj(map["items" := List(items)]), "items", []);
    assert ["items"] + [] == ["items"];
    assert Obj(map["items" := List(items)]).fields["items"] == List(items);
    AtLeads(List(items), "items", []);
  }

  // ---------------------------------------------------------------- several records

  /** Each record is a priced fill, and the totals they state are all what the fills add up to. */
  ghost predicate FillsCover(parts: seq<Reported>, total: real) {
    && (forall p <- parts :: p.oneFill.Some? && p.price.Some?)
    && (forall p <- parts :: FillAmount(p) > 0.0 ==> p.price.Some? && p.price.value >= 0.00000001)
    && (exists p <- parts :: p.filled == Some(total))
    && (forall p <- parts :: p.filled.None? || p.filled == Some(total))
    && Sum(parts, FillAmount) == total
  }

  ghost function AveragePaid(parts: seq<Reported>, total: real): Option<real> {
    if total == 0.0 then None else Some(Round8(Sum(parts, FillPaid) / total))
  }

  lemma TotalsAgreeExactlyWhen(parts: seq<Reported>, total: real)
    ensures !Disagree(parts) && StatedTotal(parts) == Some(total) <==>
              && (exists p <- parts :: p.filled == Some(total))
              && (forall p <- parts :: p.filled.None? || p.filled == Some(total))
  {
    hide StatedTotal;
    TotalIsStatedAnyhow(parts);
  }

  lemma FillsCoverExactlyWhen(parts: seq<Reported>, total: real, price: Option<real>)
    requires |parts| > 1
    ensures FillOf(parts) == Trusted((Some(total), price)) <==>
              FillsCover(parts, total) && price == AveragePaid(parts, total)
  {
    hide Round8, Times, Sum, StatedTotal, Disagree, FillAmount;
    TotalsAgreeExactlyWhen(parts, total);
  }

  lemma SeveralAlwaysTotal(parts: seq<Reported>)
    requires |parts| > 1
    ensures FillOf(parts).Trusted? ==> FillOf(parts).value.0.Some?
  {
    hide Round8, Times, Sum, StatedTotal, Disagree, FillAmount;
  }

  /** Several records of one order settle it exactly when all have its one final status, each is
      a priced fill, the totals they state agree and are what the fills add up to, no more than
      was ordered and all of it if they say so; the price is what was paid for each share. */
  lemma SeveralSettleExactlyWhen(parts: seq<Reported>, order: LocalOrder, fromHistory: bool, v: Verdict)
    requires |parts| > 1 && v.Final?
    ensures Judge(parts, order, fromHistory) == Trusted(v) <==>
              && (forall p <- parts :: p.status == v.brokerStatus)
              && FillsCover(parts, v.filled) && v.filled <= order.quantity
              && v.price == AveragePaid(parts, v.filled) && (v.price.Some? ==> v.price.value >= 0.00000001)
              && v.filledAt == Latest(parts)
              && (|| (v.brokerStatus == "FILLED" && v.orderStatus == "filled" && v.filled == order.quantity && v.filled != 0.0)
                  || (v.brokerStatus == "CANCELLED" && v.orderStatus == "cancelled")
                  || (v.brokerStatus == "REJECTED" && v.orderStatus == "rejected"))
  {
    hide Round8, Sum, Latest, FillsCover, FillOf, Judge, AveragePaid;
    SettledByTheirFill(parts, order, fromHistory, v);
    FillsCoverExactlyWhen(parts, v.filled, v.price);
    FillsCoverExactlyWhen(parts, v.filled, AveragePaid(parts, v.filled));
    if FillOf(parts).Trusted? && FillOf(parts).value.0 == Some(v.filled) {
      FillsCoverExactlyWhen(parts, v.filled, FillOf(parts).value.1);
      assert FillOf(parts) == Trusted((Some(v.filled), FillOf(parts).value.1));
    }
    NothingFilledHasNoPrice(parts, v.filled);
  }

  lemma NothingFilledHasNoPrice(parts: seq<Reported>, total: real)
    ensures AveragePaid(parts, total).None? <==> total == 0.0
  {}

  /** The verdict on several records, from their common status and the fill they make up. */
  ghost predicate OneStatus(parts: seq<Reported>, status: string) { forall p <- parts :: p.status == status }

  /** Records are judged by their one status, their fill and their latest time. */
  lemma JudgedByTheirFill(parts: seq<Reported>, order: LocalOrder, fromHistory: bool)
    requires |parts| > 1 && OneStatus(parts, parts[0].status) && parts[0].status in FINAL_STATUSES && FillOf(parts).Trusted?
    ensures var (filled, price) := FillOf(parts).value;
            var status, r := parts[0].status, Judge(parts, order, fromHistory);
            && filled.Some?
            && (r.Trusted? <==>
                  && filled.value <= order.quantity
                  && (FINAL_STATUSES[status] == "filled" ==> filled.value == order.quantity && filled.value != 0.0)
                  && (filled.value != 0.0 ==> price.Some? && price.value >= 0.00000001))
            && (r.Trusted? ==>
                  r.value == Final(status, FINAL_STATUSES[status], filled.value,
                                   if filled.value == 0.0 then None else price, Latest(parts)))
  {
    hide Latest, FillOf, FINAL_STATUSES;
    SeveralAlwaysTotal(parts);
  }

  lemma FinalNames(status: string)
    requires status in FINAL_STATUSES
    ensures status == "FILLED" || status == "CANCELLED" || status == "REJECTED"
    ensures status == "FILLED" <==> FINAL_STATUSES[status] == "filled"
    ensures status == "CANCELLED" ==> FINAL_STATUSES[status] == "cancelled"
    ensures status == "REJECTED" ==> FINAL_STATUSES[status] == "rejected"
  {}

  lemma NamesAreFinal()
    ensures "FILLED" in FINAL_STATUSES && "CANCELLED" in FINAL_STATUSES && "REJECTED" in FINAL_STATUSES
  {}

  lemma UnsettledParts(parts: seq<Reported>, order: LocalOrder, fromHistory: bool)
    requires |parts| > 1
    requires !OneStatus(parts, parts[0].status) || parts[0].status !in FINAL_STATUSES || FillOf(parts).Untrusted?
    ensures var r := Judge(parts, order, fromHistory); r.Trusted? ==> r.value.Open?
  {
    hide Latest, FillOf;
  }

  lemma SettledByTheirFill(parts: seq<Reported>, order: LocalOrder, fromHistory: bool, v: Verdict)
    requires |parts| > 1 && v.Final?
    ensures Judge(parts, order, fromHistory) == Trusted(v) <==>
              && (forall p <- parts :: p.status == v.brokerStatus)
              && FillOf(parts).Trusted? && FillOf(parts).value.0 == Some(v.filled) && v.filled <= order.quantity
              && v.price == (if v.filled == 0.0 then None else FillOf(parts).value.1)
              && (v.filled != 0.0 ==> v.price.Some? && v.price.value >= 0.00000001)
              && v.filledAt == Latest(parts)
              && (|| (v.brokerStatus == "FILLED" && v.orderStatus == "filled" && v.filled == order.quantity && v.filled != 0.0)
                  || (v.brokerStatus == "CANCELLED" && v.orderStatus == "cancelled")
                  || (v.brokerStatus == "REJECTED" && v.orderStatus == "rejected"))
  {
    hide Latest, FillOf, Judge, FINAL_STATUSES;
    assert parts[0] in parts;
    if OneStatus(parts, parts[0].status) && parts[0].status in FINAL_STATUSES && FillOf(parts).Trusted? {
      JudgedByTheirFill(parts, order, fromHistory);
      FinalNames(parts[0].status);
    } else {
      NamesAreFinal();
      UnsettledParts(parts, order, fromHistory);
    }
  }

  lemma {:induction false} TotalIsStatedAnyhow(parts: seq<Reported>)
    ensures StatedTotal(parts).None? <==> forall p <- parts :: p.filled.None?
    ensures StatedTotal(parts).Some? ==> exists p <- parts :: p.filled == StatedTotal(parts)
  {
    if parts != [] {
      assert parts == [parts[0]] + parts[1..] && parts[0] in parts;
      if parts[0].filled.None? {
        TotalIsStatedAnyhow(parts[1..]);
      }
    }
  }

  // ---------------------------------------------------------------- two reads, and the immediate answer

  /** A history verdict completes an open read exactly when their statuses agree and so do their
      filled amounts where the read states one, and it then stands as it is. */
  lemma ReadsAgreeExactlyWhen(incomplete: Trust<Verdict>, record: Verdict)
    requires incomplete.Untrusted? && record.Final?
    ensures RequireReadsAgree(incomplete, record) ==
              if incomplete.brokerStatus == Some(record.brokerStatus)
                 && (incomplete.filled.None? || incomplete.filled.value == record.filled)
              then Trusted(record) else Refuse("reads_disagree")
  {}

  /** The immediate answer, from its fields: what it settles and what it leaves open. */
  ghost predicate Acknowledges(t: Text, j: Json, side: Side, quantity: real, a: Acknowledgement) {
    && j.Obj? && UsableOrderId(t, At(j, ["id"])) == Some(a.brokerOrderId)
    && a.brokerStatus == (if At(j, ["status"]).Str? then At(j, ["status"]).s else "")
    && var filled, price := FiniteNumber(t, At(j, ["filledQuantity"])), FiniteNumber(t, At(j, ["filledPrice"]));
       if a.brokerStatus == "FILLED" then
         && a.orderStatus == "filled" && a.filled == Some(quantity) && a.price == price
         && filled.Some? && (filled.value >= 0.0 || side == Sell) && Abs(filled.value) == quantity && quantity != 0.0
         && price.Some? && price.value >= 0.00000001
       else if a.brokerStatus == "CANCELLED" || a.brokerStatus == "REJECTED" then
         && a.orderStatus == (if a.brokerStatus == "CANCELLED" then "cancelled" else "rejected")
         && a.filled.None? && a.price.None? && (At(j, ["filledQuantity"]).Null? || filled == Some(0.0))
       else a.orderStatus == "accepted" && a.filled.None? && a.price.None?
  }

  lemma AcknowledgedExactlyWhen(t: Text, j: Json, side: Side, quantity: real, a: Acknowledgement)
    ensures InterpretAcknowledgement(t, j, side, quantity) == Trusted(a) <==> Acknowledges(t, j, side, quantity, a)
  {
    hide At, UsableOrderId;
    assert FiniteNumber(t, Null) == None;
  }
}
