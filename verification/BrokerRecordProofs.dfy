/** What an accepted verdict guarantees, and that it does not depend on how the broker orders
    or mixes its records. */
module BrokerRecordProofs {
  import opened Decimals
  import opened Outcomes
  import opened PaperPolicy
  import opened BrokerRecord
  import opened Rearranging

  // ---------------------------------------------------------------- every final verdict

  lemma {:induction false} TotalIsStated(parts: seq<Reported>)
    ensures StatedTotal(parts).Some? ==> exists p <- parts :: p.filled == StatedTotal(parts)
    ensures StatedTotal(parts).None? ==> forall p <- parts :: p.filled.None?
  {
    if parts != [] {
      if parts[0].filled.Some? {
        assert parts[0] in parts;
      } else {
        TotalIsStated(parts[1..]);
        assert parts == [parts[0]] + parts[1..];
      }
    }
  }

  /** A final state is recorded only with an amount the record states, within the order, and
      a storable price exactly when something filled. */
  lemma FinalVerdictIsSound(parts: seq<Reported>, order: LocalOrder, fromHistory: bool)
    requires parts != [] && forall p <- parts :: PartOk(p)
    requires Judge(parts, order, fromHistory).Trusted? && Judge(parts, order, fromHistory).value.Final?
    ensures var v := Judge(parts, order, fromHistory).value;
            && 0.0 <= v.filled <= order.quantity
            && (exists p <- parts :: p.filled == Some(v.filled))
            && (forall p <- parts :: p.filled.None? || p.filled == Some(v.filled))
            && (forall p <- parts :: p.status == v.brokerStatus)
            && (v.orderStatus == "filled" <==> v.brokerStatus == "FILLED")
            && (v.orderStatus == "filled" ==> v.filled == order.quantity && v.filled > 0.0)
            && (v.price.Some? <==> v.filled > 0.0)
            && (v.price.Some? ==> v.price.value >= SMALLEST_STORED_PRICE)
  {
    hide Round8, Sum, Latest, Times;
    TotalIsStated(parts);
  }

  lemma RoundedTimes(exact: real, rounded: real, total: real)
    requires total > 0.0 && -HALF_QUANTUM <= rounded - exact <= HALF_QUANTUM
    ensures -HALF_QUANTUM * total <= Times(rounded, total) - Times(exact, total) <= HALF_QUANTUM * total
  {
    var e := rounded - exact;
    assert rounded * total - exact * total == e * total;
  }

  lemma QuotientTimes(paid: real, total: real)
    requires total > 0.0
    ensures Times(paid / total, total) == paid
  {}

  lemma FillOfSeveral(parts: seq<Reported>)
    requires |parts| > 1 && FillOf(parts).Trusted? && forall p <- parts :: PartOk(p)
    ensures var (total, price) := FillOf(parts).value;
            && (forall p <- parts :: p.oneFill.Some? && p.price.Some?)
            && total == Some(Sum(parts, FillAmount))
            && (total.value > 0.0 ==>
                  && price.Some?
                  && -HALF_QUANTUM * total.value <= Times(price.value, total.value) - Sum(parts, FillPaid)
                     <= HALF_QUANTUM * total.value)
  {
    hide Round8, Times, Sum, Disagree, StatedTotal;
    var total := FillOf(parts).value.0.value;
    if total > 0.0 {
      var exact := Sum(parts, FillPaid) / total;
      QuotientTimes(Sum(parts, FillPaid), total);
      RoundedTimes(exact, Round8(exact), total);
    }
  }

  lemma FinalComesFromFill(parts: seq<Reported>, order: LocalOrder, fromHistory: bool)
    requires parts != [] && Judge(parts, order, fromHistory).Trusted? && Judge(parts, order, fromHistory).value.Final?
    ensures var v := Judge(parts, order, fromHistory).value;
            && FillOf(parts).Trusted? && FillOf(parts).value.0 == Some(v.filled)
            && (v.filled > 0.0 ==> v.price == FillOf(parts).value.1)
  {
    hide FillOf, Latest;
  }

  /** Several records are accepted as one order's fills only when their amounts add up to the
      total the broker states; the price recorded, times that total, is what was paid to
      within half a price step for every share. */
  lemma SeveralFillsAddUp(parts: seq<Reported>, order: LocalOrder, fromHistory: bool)
    requires |parts| > 1 && forall p <- parts :: PartOk(p)
    requires Judge(parts, order, fromHistory).Trusted? && Judge(parts, order, fromHistory).value.Final?
    ensures var v := Judge(parts, order, fromHistory).value;
            && (forall p <- parts :: p.oneFill.Some? && p.price.Some?)
            && Sum(parts, FillAmount) == v.filled
            && (v.filled > 0.0 ==>
                  && v.price.Some?
                  && -HALF_QUANTUM * v.filled <= Times(v.price.value, v.filled) - Sum(parts, FillPaid)
                     <= HALF_QUANTUM * v.filled)
  {
    hide Judge, Times, FillOf, Sum, PartOk;
    FinalComesFromFill(parts, order, fromHistory);
    FillOfSeveral(parts);
  }

  // ---------------------------------------------------------------- order of records

  lemma {:induction false} SumOfParts(a: seq<Reported>, b: seq<Reported>, f: Reported -> real)
    ensures Sum(a + b, f) == Sum(a, f) + Sum(b, f)
  {
    if a == [] {
      assert a + b == b;
    } else {
      assert (a + b)[1..] == a[1..] + b;
      SumOfParts(a[1..], b, f);
    }
  }

  lemma {:induction false} SumRearranged(a: seq<Reported>, b: seq<Reported>, f: Reported -> real)
    requires multiset(a) == multiset(b)
    ensures Sum(a, f) == Sum(b, f)
  {
    if a == [] {
      assert |multiset(b)| == 0;
    } else {
      var i := Locate(a, b);
      SumRearranged(a[1..], b[..i] + b[i + 1..], f);
      SumOfParts(b[..i], b[i + 1..], f);
      SumOfParts(b[..i] + [b[i]], b[i + 1..], f);
      SumOfParts(b[..i], [b[i]], f);
      assert [b[i]][1..] == [];
    }
  }

  lemma {:induction false} LatestIsLatest(parts: seq<Reported>)
    ensures Latest(parts).None? ==> forall p <- parts :: p.filledAt.None?
    ensures Latest(parts).Some? ==>
              && (exists p <- parts :: p.filledAt == Latest(parts))
              && forall p <- parts :: p.filledAt.Some? ==> p.filledAt.value <= Latest(parts).value
  {
    if parts != [] {
      LatestIsLatest(parts[1..]);
      assert parts == [parts[0]] + parts[1..];
      assert parts[0] in parts;
    }
  }

  lemma JudgeRearranged(a: seq<Reported>, b: seq<Reported>, order: LocalOrder, fromHistory: bool)
    requires a != [] && b != [] && multiset(a) == multiset(b)
    ensures Judge(a, order, fromHistory) == Judge(b, order, fromHistory)
  {
    hide FillOf, Disagree, StatedTotal, Latest;
    SameMembers(a, b);
    LatestRearranged(a, b);
    TotalsRearranged(a, b);
    FillRearranged(a, b);
    assert a[0] in b && b[0] in a;
  }

  lemma LatestRearranged(a: seq<Reported>, b: seq<Reported>)
    requires multiset(a) == multiset(b)
    ensures Latest(a) == Latest(b)
  {
    hide Latest;
    SameMembers(a, b);
    LatestIsLatest(a);
    LatestIsLatest(b);
  }

  lemma TotalsRearranged(a: seq<Reported>, b: seq<Reported>)
    requires multiset(a) == multiset(b)
    ensures Disagree(a) <==> Disagree(b)
    ensures !Disagree(a) ==> StatedTotal(a) == StatedTotal(b)
  {
    hide StatedTotal;
    SameMembers(a, b);
    TotalIsStated(a);
    TotalIsStated(b);
  }

  lemma FillRearranged(a: seq<Reported>, b: seq<Reported>)
    requires a != [] && b != [] && multiset(a) == multiset(b)
    requires Disagree(a) <==> Disagree(b)
    requires !Disagree(a) ==> StatedTotal(a) == StatedTotal(b)
    ensures FillOf(a) == FillOf(b)
  {
    hide Round8, Sum, Disagree, StatedTotal;
    SameMembers(a, b);
    SumRearranged(a, b, FillAmount);
    SumRearranged(a, b, FillPaid);
    if |a| == 1 {
      assert a[0] in b;
    }
  }

  lemma {:induction false} ReadAllReads(t: Text, found: seq<Json>, order: LocalOrder)
    ensures ReadAll(t, found, order).Trusted? <==> forall v <- found :: ReadRecord(t, v, order).Trusted?
    ensures ReadAll(t, found, order).Trusted? ==>
              forall i :: 0 <= i < |found| ==>
                ReadRecord(t, found[i], order) == Trusted(ReadAll(t, found, order).value[i])
  {
    hide ReadRecord;
    if found != [] {
      ReadAllReads(t, found[1..], order);
      assert found == [found[0]] + found[1..];
    }
  }

  lemma ReadAllRearranged(t: Text, a: seq<Json>, b: seq<Json>, order: LocalOrder)
    requires multiset(a) == multiset(b) && ReadAll(t, a, order).Trusted?
    ensures ReadAll(t, b, order).Trusted?
    ensures multiset(ReadAll(t, a, order).value) == multiset(ReadAll(t, b, order).value)
  {
    hide ReadRecord, ReadAll;
    ReadAllReads(t, a, order);
    ReadAllReads(t, b, order);
    SameMembers(a, b);
    var f := v => var r := ReadRecord(t, v, order); if r.Trusted? then r.value else Reported("", None, None, None, None);
    ImageRearranged(a, b, ReadAll(t, a, order).value, ReadAll(t, b, order).value, f);
  }

  lemma {:induction false} RecordsOfParts(t: Text, a: seq<Json>, b: seq<Json>, id: string)
    ensures Records(t, a + b, id) == Records(t, a, id) + Records(t, b, id)
  {
    hide UsableOrderId, First;
    if a == [] {
      assert a + b == b;
    } else {
      assert (a + b)[1..] == a[1..] + b;
      RecordsOfParts(t, a[1..], b, id);
    }
  }

  lemma {:induction false} RecordsRearranged(t: Text, a: seq<Json>, b: seq<Json>, id: string)
    requires multiset(a) == multiset(b)
    ensures multiset(Records(t, a, id)) == multiset(Records(t, b, id))
  {
    hide UsableOrderId, First;
    if a == [] {
      assert |multiset(b)| == 0;
    } else {
      var i := Locate(a, b);
      RecordsRearranged(t, a[1..], b[..i] + b[i + 1..], id);
      RecordsOfParts(t, b[..i], b[i + 1..], id);
      RecordsOfParts(t, b[..i] + [b[i]], b[i + 1..], id);
      RecordsOfParts(t, b[..i], [b[i]], id);
      assert [b[i]][1..] == [];
    }
  }

  predicate AboutAnother(t: Text, v: Json, id: string) {
    !v.Obj? || UsableOrderId(t, First(v, ID)) != Some(id)
  }

  lemma {:induction false} OthersAreSkipped(t: Text, items: seq<Json>, id: string)
    requires forall v <- items :: AboutAnother(t, v, id)
    ensures Records(t, items, id) == []
  {
    hide UsableOrderId, First;
    if items != [] {
      assert AboutAnother(t, items[0], id);
      OthersAreSkipped(t, items[1..], id);
    }
  }

  /** The same decision: the same verdict, or a refusal on both sides. */
  predicate SameDecision(a: Trust<Option<Verdict>>, b: Trust<Option<Verdict>>) {
    (a.Trusted? || b.Trusted?) ==> a == b
  }

  lemma JudgeRecordsRearranged(t: Text, a: seq<Json>, b: seq<Json>, order: LocalOrder)
    requires multiset(a) == multiset(b)
    ensures SameDecision(JudgeRecords(t, a, order), JudgeRecords(t, b, order))
  {
    hide Judge, ReadAll;
    SameMembers(a, b);
    if a != [] {
      if ReadAll(t, a, order).Trusted? {
        ReadAllRearranged(t, a, b, order);
        JudgeRearranged(ReadAll(t, a, order).value, ReadAll(t, b, order).value, order, true);
      } else if ReadAll(t, b, order).Trusted? {
        ReadAllRearranged(t, b, a, order);
      }
    }
  }

  /** A history page decides the same about an order however its records are arranged and
      whatever records of other orders stand among them. */
  lemma HistoryOrderDoesNotMatter(t: Text, items: seq<Json>, others: seq<Json>, page: seq<Json>, order: LocalOrder)
    requires multiset(page) == multiset(items) + multiset(others)
    requires forall v <- others :: AboutAnother(t, v, order.brokerOrderId)
    ensures SameDecision(InterpretHistory(t, List(items), order), InterpretHistory(t, List(page), order))
  {
    hide JudgeRecords, Records;
    var id := order.brokerOrderId;
    assert multiset(items + others) == multiset(page);
    RecordsRearranged(t, page, items + others, id);
    RecordsOfParts(t, items, others, id);
    OthersAreSkipped(t, others, id);
    assert Records(t, items, id) + [] == Records(t, items, id);
    JudgeRecordsRearranged(t, Records(t, items, id), Records(t, page, id), order);
  }

  /** Every record that cannot be read is refused for the same reason. */
  ghost predicate RefusedAlike(t: Text, found: seq<Json>, order: LocalOrder) {
    forall v <- found, w <- found ::
      ReadRecord(t, v, order).Untrusted? && ReadRecord(t, w, order).Untrusted? ==>
        ReadRecord(t, v, order).reason == ReadRecord(t, w, order).reason
  }

  /** A page is refused for the reason of its first record that cannot be read. */
  lemma {:induction false} FirstRefusalDecides(t: Text, found: seq<Json>, order: LocalOrder)
    requires ReadAll(t, found, order).Untrusted?
    ensures exists v <- found :: ReadRecord(t, v, order).Untrusted?
                                 && ReadAll(t, found, order) == Refuse(ReadRecord(t, v, order).reason)
    ensures ReadRecord(t, found[0], order).Untrusted? ==>
              ReadAll(t, found, order) == Refuse(ReadRecord(t, found[0], order).reason)
  {
    RefusedPlainly(t, found[0], order);
    hide ReadRecord;
    if ReadRecord(t, found[0], order).Trusted? {
      FirstRefusalDecides(t, found[1..], order);
      assert forall v <- found[1..] :: v in found;
    }
  }

  lemma RefusedPlainly(t: Text, v: Json, order: LocalOrder)
    ensures ReadRecord(t, v, order).Untrusted? ==>
              ReadRecord(t, v, order) == Refuse(ReadRecord(t, v, order).reason)
  {
    hide ReadRecord;
  }

  lemma {:induction false} RecordsAreItems(t: Text, items: seq<Json>, id: string)
    ensures forall v <- Records(t, items, id) :: v in items && v.Obj? && UsableOrderId(t, First(v, ID)) == Some(id)
  {
    hide UsableOrderId, First;
    if items != [] {
      RecordsAreItems(t, items[1..], id);
    }
  }

  lemma RefusedAlikeRearranged(t: Text, a: seq<Json>, b: seq<Json>, order: LocalOrder)
    requires multiset(a) == multiset(b) && RefusedAlike(t, a, order)
    ensures JudgeRecords(t, a, order) == JudgeRecords(t, b, order)
  {
    hide Judge, ReadAll, ReadRecord;
    SameMembers(a, b);
    if a != [] {
      if ReadAll(t, a, order).Trusted? {
        ReadAllRearranged(t, a, b, order);
        JudgeRearranged(ReadAll(t, a, order).value, ReadAll(t, b, order).value, order, true);
      } else if ReadAll(t, b, order).Trusted? {
        ReadAllRearranged(t, b, a, order);
      } else {
        FirstRefusalDecides(t, a, order);
        FirstRefusalDecides(t, b, order);
      }
    }
  }

  /** A page that starts with a record of this order that cannot be read is refused for that
      record's reason. */
  lemma PutFirst(t: Text, items: seq<Json>, order: LocalOrder, v: Json) returns (page: seq<Json>)
    requires v in Records(t, items, order.brokerOrderId) && ReadRecord(t, v, order).Untrusted?
    ensures multiset(page) == multiset(items)
    ensures InterpretHistory(t, List(page), order) == Refuse(ReadRecord(t, v, order).reason)
  {
    hide ReadRecord, UsableOrderId, First, Judge;
    var id := order.brokerOrderId;
    RecordsAreItems(t, items, id);
    var i :| 0 <= i < |items| && items[i] == v;
    assert items == items[..i] + [v] + items[i + 1..];
    page := [v] + (items[..i] + items[i + 1..]);
    var found := Records(t, page, id);
    assert page[1..] == items[..i] + items[i + 1..];
    assert found[0] == v;
    ReadAllReads(t, found, order);
    FirstRefusalDecides(t, found, order);
  }

  /** The outcome of a page, its refusal's reason included, is the same in every order of its
      records exactly when all its records of this order that cannot be read are refused
      alike. */
  lemma ReasonIgnoresOrderExactlyWhen(t: Text, items: seq<Json>, order: LocalOrder)
    ensures (forall page: seq<Json> :: multiset(page) == multiset(items) ==>
               InterpretHistory(t, List(page), order) == InterpretHistory(t, List(items), order))
            <==> RefusedAlike(t, Records(t, items, order.brokerOrderId), order)
  {
    hide ReadRecord, JudgeRecords, Records;
    var id := order.brokerOrderId;
    var found := Records(t, items, id);
    if RefusedAlike(t, found, order) {
      forall page: seq<Json> | multiset(page) == multiset(items)
        ensures InterpretHistory(t, List(page), order) == InterpretHistory(t, List(items), order)
      {
        RecordsRearranged(t, items, page, id);
        RefusedAlikeRearranged(t, found, Records(t, page, id), order);
      }
    } else {
      var v, w :| v in found && w in found
                  && ReadRecord(t, v, order).Untrusted? && ReadRecord(t, w, order).Untrusted?
                  && ReadRecord(t, v, order).reason != ReadRecord(t, w, order).reason;
      var first := PutFirst(t, items, order, v);
      var second := PutFirst(t, items, order, w);
      assert InterpretHistory(t, List(first), order) != InterpretHistory(t, List(second), order);
    }
  }

  const PlainText := Text(s => s, s => s, s => s, s => None, v => None, v => "")
  const BuyOfA := LocalOrder("7", "A", Buy, "market", 1.0)
  const OtherTicker := Obj(map["id" := Str("7"), "ticker" := Str("B")])
  const OtherSide := Obj(map["id" := Str("7"), "side" := Str("sell")])

  lemma AtName(fields: map<string, Json>, name: string)
    ensures At(Obj(fields), [name]) == if name in fields then fields[name] else Null
    ensures At(Null, [name]) == Null
  {
    assert [name][1..] == [];
  }

  lemma AtOrder(fields: map<string, Json>, rest: Path)
    requires "order" !in fields
    ensures At(Obj(fields), ["order"] + rest) == Null
  {}

  lemma TwoRecords(t: Text, v: Json, w: Json, id: string)
    requires v.Obj? && UsableOrderId(t, First(v, ID)) == Some(id)
    requires w.Obj? && UsableOrderId(t, First(w, ID)) == Some(id)
    ensures Records(t, [v, w], id) == [v, w]
  {
    hide UsableOrderId, First;
    assert [v, w][1..] == [w] && [w][1..] == [];
    assert Records(t, [w], id) == [w] + Records(t, [], id);
  }

  lemma RefusedByTheFirst(t: Text, v: Json, w: Json, order: LocalOrder)
    requires v.Obj? && UsableOrderId(t, First(v, ID)) == Some(order.brokerOrderId)
    requires w.Obj? && UsableOrderId(t, First(w, ID)) == Some(order.brokerOrderId)
    requires ReadRecord(t, v, order).Untrusted?
    ensures InterpretHistory(t, List([v, w]), order) == Refuse(ReadRecord(t, v, order).reason)
  {
    hide UsableOrderId, First, ReadRecord, Records, ReadAll, Judge;
    TwoRecords(t, v, w, order.brokerOrderId);
    ReadAllReads(t, [v, w], order);
    FirstRefusalDecides(t, [v, w], order);
  }

  /** One record names another ticker, the other the other side: the two orders of that page are
      refused for different reasons. */
  lemma ReasonsDiffer()
    ensures InterpretHistory(PlainText, List([OtherTicker, OtherSide]), BuyOfA) == Refuse("ticker_differs")
    ensures InterpretHistory(PlainText, List([OtherSide, OtherTicker]), BuyOfA) == Refuse("side_differs")
  {
    hide ReadRecord, First, InterpretHistory;
    TickerRecord();
    SideRecord();
    assert UsableOrderId(PlainText, Str("7")) == Some("7");
    RefusedByTheFirst(PlainText, OtherTicker, OtherSide, BuyOfA);
    RefusedByTheFirst(PlainText, OtherSide, OtherTicker, BuyOfA);
  }

  lemma PathsOf(fields: map<string, Json>)
    requires "order" !in fields && "orderId" !in fields
    ensures First(Obj(fields), ID) == if "id" in fields then fields["id"] else Null
    ensures Values(Obj(fields), TICKER) == if "ticker" in fields && !fields["ticker"].Null? then [fields["ticker"]] else []
    ensures Values(Obj(fields), SIDE) == if "side" in fields && !fields["side"].Null? then [fields["side"]] else []
  {
    var v := Obj(fields);
    AtOrder(fields, ["id"]);
    AtOrder(fields, ["ticker"]);
    AtOrder(fields, ["side"]);
    AtOrder(fields, ["instrument", "ticker"]);
    AtName(fields, "id");
    AtName(fields, "orderId");
    AtName(fields, "ticker");
    AtName(fields, "side");
    ThreePaths(v, ["order", "id"], ["id"], ["orderId"]);
    ThreePaths(v, ["order", "ticker"], ["ticker"], ["order", "instrument", "ticker"]);
    TwoPaths(v, ["order", "side"], ["side"]);
  }

  lemma TwoPaths(v: Json, a: Path, b: Path)
    ensures Values(v, [a, b]) == (if At(v, a).Null? then [] else [At(v, a)]) + (if At(v, b).Null? then [] else [At(v, b)])
  {
    assert [a, b][1..] == [b] && [b][1..] == [];
    assert Values(v, [b]) == (if At(v, b).Null? then [] else [At(v, b)]) + Values(v, []);
  }

  lemma ThreePaths(v: Json, a: Path, b: Path, c: Path)
    ensures Values(v, [a, b, c]) == (if At(v, a).Null? then [] else [At(v, a)]) + Values(v, [b, c])
    ensures Values(v, [b, c]) == (if At(v, b).Null? then [] else [At(v, b)]) + (if At(v, c).Null? then [] else [At(v, c)])
  {
    assert [a, b, c][1..] == [b, c];
    TwoPaths(v, b, c);
  }

  lemma TickerRecord()
    ensures First(OtherTicker, ID) == Str("7")
    ensures ReadRecord(PlainText, OtherTicker, BuyOfA) == Refuse("ticker_differs")
  {
    hide Values, First, At;
    PathsOf(OtherTicker.fields);
    assert Stated(PlainText, OtherTicker, TICKER, false) == Trusted(Str("B"));
    assert RequireSameOrder(PlainText, OtherTicker, BuyOfA) == Refuse("ticker_differs");
  }

  lemma SideRecord()
    ensures First(OtherSide, ID) == Str("7")
    ensures ReadRecord(PlainText, OtherSide, BuyOfA) == Refuse("side_differs")
  {
    hide Values, First, At;
    PathsOf(OtherSide.fields);
    assert Stated(PlainText, OtherSide, TICKER, false) == Trusted(Null);
    assert Stated(PlainText, OtherSide, SIDE, false) == Trusted(Str("sell"));
    assert RequireSameOrder(PlainText, OtherSide, BuyOfA) == Refuse("side_differs");
  }

  /** A history verdict is final, is about this order's records only, and is sound. */
  lemma HistoryVerdictIsSound(t: Text, history: Json, order: LocalOrder)
    requires InterpretHistory(t, history, order).Trusted? && InterpretHistory(t, history, order).value.Some?
    ensures var v := InterpretHistory(t, history, order).value.value;
            && v.Final? && 0.0 <= v.filled <= order.quantity
            && (v.orderStatus == "filled" ==> v.filled == order.quantity && v.filled > 0.0)
            && (v.price.Some? <==> v.filled > 0.0)
            && (v.price.Some? ==> v.price.value >= SMALLEST_STORED_PRICE)
            && Records(t, HistoryItems(history).value, order.brokerOrderId) != []
  {
    hide Judge, Records;
    var found := Records(t, HistoryItems(history).value, order.brokerOrderId);
    var parts := ReadAll(t, found, order).value;
    FinalVerdictIsSound(parts, order, true);
  }

  /** The history may complete an open-orders answer that left a number out, and then keeps
      everything that answer did state; an answer that contradicts the order or itself is
      never marked as one that may be completed. */
  lemma CompletionKeepsWhatWasStated(t: Text, v: Json, order: LocalOrder, record: Verdict)
    requires InterpretOpenOrderRead(t, v, order).Untrusted? && record.Final?
    ensures var open := InterpretOpenOrderRead(t, v, order);
            && (open.lacksDetail <==> open.reason in {"filled_quantity_missing", "fill_price_missing"} && open.brokerStatus.Some?)
            && (open.lacksDetail && RequireReadsAgree(open, record).Trusted? ==>
                  && ReadRecord(t, v, order).Trusted?
                  && record.brokerStatus == ReadRecord(t, v, order).value.status
                  && (ReadRecord(t, v, order).value.filled.Some? ==>
                        ReadRecord(t, v, order).value.filled == Some(record.filled)))
  {
    hide ReadRecord, FillOf;
    if ReadRecord(t, v, order).Trusted? {
      var part := ReadRecord(t, v, order).value;
      SingleFill(part);
      assert [part][0] == part;
      assert InterpretOpenOrderRead(t, v, order) == Judge([part], order, false);
    }
  }

  lemma SingleFill(part: Reported)
    ensures FillOf([part]).Trusted? ==> FillOf([part]).value.0 == part.filled
    ensures Plain(FillOf([part]))
    ensures FillOf([part]).Untrusted? ==> FillOf([part]).reason == "fill_does_not_cover_filled_quantity"
  {
    hide Round8, Sum;
    assert [part][1..] == [] && StatedTotal([]) == None;
    assert StatedTotal([part]) == part.filled;
  }

  /** The immediate answer settles an order only when it fills it exactly, at a storable price,
      or ends it without any fill; every other named order stays open. */
  lemma AcknowledgementIsSound(t: Text, response: Json, side: Side, quantity: real)
    requires InterpretAcknowledgement(t, response, side, quantity).Trusted?
    ensures var a := InterpretAcknowledgement(t, response, side, quantity).value;
            && Some(a.brokerOrderId) == UsableOrderId(t, At(response, ["id"]))
            && (a.orderStatus == "filled" <==> a.brokerStatus == "FILLED")
            && (a.orderStatus == "filled" ==>
                  && a.filled == Some(quantity) && quantity > 0.0
                  && ReportedFill(t, response, side) == Trusted(Some(quantity))
                  && a.price.Some? && a.price.value >= SMALLEST_STORED_PRICE)
            && (a.orderStatus in {"cancelled", "rejected"} ==>
                  ReportedFill(t, response, side) in {Trusted(None), Trusted(Some(0.0))})
            && (a.orderStatus in {"filled", "cancelled", "rejected", "accepted"})
  {
    hide FiniteNumber, UsableOrderId, At;
  }
}
