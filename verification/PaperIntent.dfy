/** The browser's record of a paper order being placed
    (apps/web/lib/paper-operation-intent.ts): one entry per owner in session storage, so that
    a retry carries the same operation id as the request whose answer was lost. */
module PaperIntent {
  import opened Outcomes
  import opened PaperNumeral

  const PREFIX := "cg-paper-intent-v1:"

  predicate IsHex(c: char) { '0' <= c <= '9' || 'a' <= c <= 'f' || 'A' <= c <= 'F' }

  predicate IsUuid(s: string) {
    |s| == 36
    && forall i :: 0 <= i < 36 ==> if i in {8, 13, 18, 23} then s[i] == '-' else IsHex(s[i])
  }

  // ---------------------------------------------------------------- what is stored

  /** A field of the payload as the caller wrote it. */
  datatype Field = Text(s: string) | Flag(b: bool) | Other
  type Payload = map<string, Field>

  const FIELDS: set<string> :=
    {"ticker", "side", "quantity", "estimated_price", "source", "venue", "paper_only", "order_type"}

  predicate IsText(p: Payload, field: string) { field in p && p[field].Text? }

  predicate ValidPayload(p: Payload) {
    && p.Keys <= FIELDS
    && IsText(p, "ticker") && 1 <= |p["ticker"].s| <= 50
    && (exists i :: 0 <= i < |p["ticker"].s| && p["ticker"].s[i] != ' ')
    && "side" in p && p["side"] in {Text("buy"), Text("sell")}
    && IsText(p, "quantity") && PositivePaperDecimal(p["quantity"].s)
    && IsText(p, "estimated_price") && PositivePaperDecimal(p["estimated_price"].s)
    && "source" in p && p["source"] == Text("manual_demo_ui")
    && "venue" in p && p["venue"] in {Text("paper"), Text("mock")}
    && "paper_only" in p && p["paper_only"] == Flag(true)
    && "order_type" in p && p["order_type"] == Text("market")
  }

  /** What the text under a key parses to: nothing usable, or an object. */
  datatype Stored =
    | Junk
    | Row(version: int, ownerId: Option<string>, operationId: Option<string>, state: string,
          payload: Option<Payload>)

  const InvalidMarker := Row(1, None, None, "invalid", None)

  predicate ValidRow(row: Stored, owner: string) {
    && row.Row? && row.version == 1 && row.ownerId == Some(owner)
    && row.operationId.Some? && IsUuid(row.operationId.value)
    && row.state in {"pending", "recorded", "unresolved"}
    && (row.state == "pending" ==> row.payload.Some? && ValidPayload(row.payload.value))
  }

  type Items = map<string, Stored>

  // ---------------------------------------------------------------- the operations

  function Read(owner: string, items: Items): Result<Option<Stored>> {
    if !IsUuid(owner) then Refused("owner")
    else if PREFIX + owner !in items then Ok(None)
    else if ValidRow(items[PREFIX + owner], owner) then Ok(Some(items[PREFIX + owner]))
    else Refused("reconcile")
  }

  /** The record handed back and the storage after. */
  function Create(owner: string, payload: Payload, items: Items, generated: string): Result<(Stored, Items)> {
    var prior := Read(owner, items);
    if prior.Refused? then Refused(prior.reason)
    else if prior.value.Some? then
      if prior.value.value.state == "pending" then Ok((prior.value.value, items)) else Refused("review")
    else if !ValidPayload(payload) then Refused("payload")
    else if !IsUuid(generated) then Refused("identity")
    else
      var row := Row(1, Some(owner), Some(generated), "pending", Some(payload));
      Ok((row, items[PREFIX + owner := row]))
  }

  function Record(owner: string, operation: string, items: Items): Result<Items> {
    var prior := Read(owner, items);
    if prior.Refused? then Refused(prior.reason)
    else if prior.value.None? || prior.value.value.operationId != Some(operation) then Refused("changed")
    else Ok(items[PREFIX + owner := Row(1, Some(owner), Some(operation), "recorded", None)])
  }

  function New(owner: string, items: Items): Result<Items> {
    var prior := Read(owner, items);
    if prior.Refused? then Refused(prior.reason)
    else if prior.value.None? || prior.value.value.state != "recorded" then Refused("unresolved")
    else Ok(items - {PREFIX + owner})
  }

  predicate HasPrefix(key: string) { |PREFIX| <= |key| && key[..|PREFIX|] == PREFIX }

  function OwnerOf(key: string): string
    requires HasPrefix(key)
  {
    key[|PREFIX|..]
  }

  function Scrubbed(key: string, row: Stored): Stored {
    if !HasPrefix(key) then row
    else if IsUuid(OwnerOf(key)) && ValidRow(row, OwnerOf(key)) then
      Row(1, row.ownerId, row.operationId, if row.state == "recorded" then "recorded" else "unresolved", None)
    else InvalidMarker
  }

  lemma OthersStay(key: string, row: Stored)
    requires !HasPrefix(key)
    ensures Scrubbed(key, row) == row
  {}

  function Scrub(items: Items): Items {
    map key | key in items :: Scrubbed(key, items[key])
  }

  // ---------------------------------------------------------------- as the browser runs it

  /** Nothing but one key differs. */
  ghost predicate OthersSame(before: Items, after: Items, key: string) {
    forall other: string :: other != key ==>
      && (other in after <==> other in before)
      && (other in after ==> after[other] == before[other])
  }

  /** Session storage: setting a key that is there keeps its position. */
  class SessionStorage {
    var keys: seq<string>
    var items: Items

    ghost predicate Valid()
      reads this
    {
      && (forall i :: 0 <= i < |keys| ==> keys[i] in items)
      && (forall key <- items :: key in keys)
      && (forall i, j :: 0 <= i < j < |keys| ==> keys[i] != keys[j])
    }

    constructor ()
      ensures Valid() && items == map[]
    {
      keys, items := [], map[];
    }

    method SetItem(key: string, value: Stored)
      requires Valid()
      modifies this
      ensures Valid() && items == old(items)[key := value]
      ensures key in old(items) ==> keys == old(keys)
    {
      if key !in items {
        keys := keys + [key];
      }
      items := items[key := value];
    }

    method RemoveItem(key: string)
      requires Valid()
      modifies this
      ensures Valid() && items == old(items) - {key}
    {
      if key in items {
        var i :| 0 <= i < |keys| && keys[i] == key;
        keys := keys[..i] + keys[i + 1..];
      }
      items := items - {key};
    }

    method CreatePaperIntent(owner: string, payload: Payload, generated: string) returns (r: Result<Stored>)
      requires Valid()
      modifies this
      ensures Valid()
      ensures var spec := Create(owner, payload, old(items), generated);
              if spec.Ok? then r == Ok(spec.value.0) && items == spec.value.1
              else r == Refused(spec.reason) && items == old(items)
      ensures OthersSame(old(items), items, PREFIX + owner)
      ensures r.Ok? ==> Read(owner, items) == Ok(Some(r.value)) && r.value.state == "pending"
      ensures r.Ok? && PREFIX + owner in old(items) ==>
                items == old(items) && r.value == old(items)[PREFIX + owner]
      ensures r.Ok? && PREFIX + owner !in old(items) ==>
                r.value.operationId == Some(generated) && r.value.payload == Some(payload)
    {
      var prior := Read(owner, items);
      if prior.Refused? {
        return Refused(prior.reason);
      }
      if prior.value.Some? {
        if prior.value.value.state == "pending" {
          return Ok(prior.value.value);
        }
        return Refused("review");
      }
      if !ValidPayload(payload) {
        return Refused("payload");
      }
      if !IsUuid(generated) {
        return Refused("identity");
      }
      var row := Row(1, Some(owner), Some(generated), "pending", Some(payload));
      SetItem(PREFIX + owner, row);
      r := Ok(row);
    }

    method RecordPaperResult(owner: string, operation: string) returns (refusal: Option<string>)
      requires Valid()
      modifies this
      ensures Valid()
      ensures var spec := Record(owner, operation, old(items));
              if spec.Ok? then refusal.None? && items == spec.value
              else refusal == Some(spec.reason) && items == old(items)
      ensures OthersSame(old(items), items, PREFIX + owner)
      ensures refusal.None? ==>
                && PREFIX + owner in old(items) && old(items)[PREFIX + owner].operationId == Some(operation)
                && Read(owner, items) == Ok(Some(Row(1, Some(owner), Some(operation), "recorded", None)))
    {
      var prior := Read(owner, items);
      if prior.Refused? {
        return Some(prior.reason);
      }
      if prior.value.None? || prior.value.value.operationId != Some(operation) {
        return Some("changed");
      }
      SetItem(PREFIX + owner, Row(1, Some(owner), Some(operation), "recorded", None));
      refusal := None;
    }

    method NewPaperIntent(owner: string) returns (refusal: Option<string>)
      requires Valid()
      modifies this
      ensures Valid()
      ensures var spec := New(owner, old(items));
              if spec.Ok? then refusal.None? && items == spec.value
              else refusal == Some(spec.reason) && items == old(items)
      ensures OthersSame(old(items), items, PREFIX + owner)
      ensures refusal.None? ==>
                && PREFIX + owner in old(items) && old(items)[PREFIX + owner].state == "recorded"
                && Read(owner, items) == Ok(None)
    {
      var prior := Read(owner, items);
      if prior.Refused? {
        return Some(prior.reason);
      }
      if prior.value.None? || prior.value.value.state != "recorded" {
        return Some("unresolved");
      }
      RemoveItem(PREFIX + owner);
      refusal := None;
    }

    method ScrubItem(key: string)
      requires Valid() && key in items && HasPrefix(key)
      modifies this
      ensures Valid() && keys == old(keys)
      ensures items == old(items)[key := Scrubbed(key, old(items)[key])]
    {
      hide PositivePaperDecimal, ValidPayload, IsUuid;
      assert PREFIX + OwnerOf(key) == key;
      var prior := Read(OwnerOf(key), items);
      if prior.Ok? {
        var row := prior.value.value;
        SetItem(key, Row(1, row.ownerId, row.operationId,
                         if row.state == "recorded" then "recorded" else "unresolved", None));
      } else {
        SetItem(key, InvalidMarker);
      }
    }

    /** Position by position, rewriting in place. */
    method ScrubPaperIntentPayloads()
      requires Valid()
      modifies this
      ensures Valid() && keys == old(keys) && items == Scrub(old(items))
    {
      hide Scrubbed, HasPrefix;
      var index := 0;
      while index < |keys|
        invariant 0 <= index <= |keys| && Valid()
        invariant keys == old(keys) && items.Keys == old(items).Keys
        invariant forall i :: 0 <= i < index ==> items[keys[i]] == Scrubbed(keys[i], old(items)[keys[i]])
        invariant forall i :: index <= i < |keys| ==> items[keys[i]] == old(items)[keys[i]]
      {
        var key := keys[index];
        if HasPrefix(key) {
          ScrubItem(key);
        } else {
          OthersStay(key, items[key]);
        }
        index := index + 1;
      }
    }
  }

  // ---------------------------------------------------------------- every history

  datatype Call =
    | DoCreate(owner: string, payload: Payload, generated: string)
    | DoRecord(owner: string, operation: string)
    | DoNew(owner: string)
    | DoScrub

  /** Storage, and every operation id handed out so far with what it was handed out for. */
  datatype State = State(items: Items, issued: map<string, (string, Payload)>)

  predicate Issues(s: State, c: Call) {
    c.DoCreate?
    && var r := Create(c.owner, c.payload, s.items, c.generated);
       r.Ok? && r.value.1 != s.items
  }

  function Next(s: State, c: Call): State {
    match c
    case DoCreate(owner, payload, generated) =>
      var r := Create(owner, payload, s.items, generated);
      if r.Refused? then s
      else State(r.value.1, if Issues(s, c) then s.issued[generated := (owner, payload)] else s.issued)
    case DoRecord(owner, operation) =>
      var r := Record(owner, operation, s.items);
      if r.Ok? then s.(items := r.value) else s
    case DoNew(owner) =>
      var r := New(owner, s.items);
      if r.Ok? then s.(items := r.value) else s
    case DoScrub => s.(items := Scrub(s.items))
  }

  /** Generated ids are new: none has been issued before. */
  ghost predicate Fresh(s: State, c: Call) {
    c.DoCreate? ==> c.generated !in s.issued
  }

  function After(calls: seq<Call>): State {
    if calls == [] then State(map[], map[]) else Next(After(calls[..|calls| - 1]), calls[|calls| - 1])
  }

  ghost predicate AllFresh(calls: seq<Call>) {
    forall i {:trigger calls[..i]} :: 0 <= i < |calls| ==> Fresh(After(calls[..i]), calls[i])
  }

  /** A stored entry is one that was issued, to that owner, with that payload if it still has
      one; or it is the marker that nothing can be read from. */
  ghost predicate Genuine(s: State, key: string)
    requires key in s.items
  {
    var row := s.items[key];
    && HasPrefix(key) && IsUuid(OwnerOf(key))
    && ValidRow(row, OwnerOf(key))
    && row.operationId.value in s.issued
    && s.issued[row.operationId.value].0 == OwnerOf(key)
    && (row.payload.Some? ==> row.payload == Some(s.issued[row.operationId.value].1))
  }

  lemma FreshSoFar(calls: seq<Call>, n: nat)
    requires AllFresh(calls) && n <= |calls|
    ensures AllFresh(calls[..n])
  {
    forall i | 0 <= i < n ensures Fresh(After(calls[..n][..i]), calls[..n][i]) {
      assert calls[..n][..i] == calls[..i];
    }
  }

  lemma {:induction false} EntriesAreGenuine(calls: seq<Call>)
    requires AllFresh(calls)
    ensures forall key <- After(calls).items :: Genuine(After(calls), key)
  {
    if calls != [] {
      var n := |calls| - 1;
      FreshSoFar(calls, n);
      EntriesAreGenuine(calls[..n]);
      StepKeepsGenuine(After(calls[..n]), calls[n]);
    }
  }

  lemma StepKeepsGenuine(s: State, c: Call)
    requires Fresh(s, c) && forall key <- s.items :: Genuine(s, key)
    ensures forall key <- Next(s, c).items :: Genuine(Next(s, c), key)
  {
    hide PositivePaperDecimal, ValidPayload, IsUuid;
    var s' := Next(s, c);
    forall key | key in s'.items ensures Genuine(s', key) {
      if !c.DoScrub? {
        assert HasPrefix(PREFIX + c.owner) && OwnerOf(PREFIX + c.owner) == c.owner;
      }
    }
  }

  lemma StepKeepsIssued(s: State, c: Call, id: string)
    requires Fresh(s, c) && id in s.issued
    ensures id in Next(s, c).issued && Next(s, c).issued[id] == s.issued[id]
  {
    hide Create, Record, New, Scrub;
  }

  lemma {:induction false} IssuedStays(calls: seq<Call>, i: nat, j: nat, id: string)
    requires AllFresh(calls) && i <= j <= |calls| && id in After(calls[..i]).issued
    ensures id in After(calls[..j]).issued && After(calls[..j]).issued[id] == After(calls[..i]).issued[id]
  {
    hide Next;
    if i < j {
      IssuedStays(calls, i, j - 1, id);
      assert calls[..j][..j - 1] == calls[..j - 1];
      assert Fresh(After(calls[..j - 1]), calls[j - 1]);
      StepKeepsIssued(After(calls[..j - 1]), calls[j - 1], id);
    }
  }

  /** One operation id is bound to one payload for ever: two entries found in storage at any two
      times of a history under the same operation id are the same owner's, and hold the same
      payload while they hold any. */
  lemma OneIdOnePayload(calls: seq<Call>, i: nat, j: nat, key: string, key': string)
    requires AllFresh(calls) && i <= j <= |calls|
    requires key in After(calls[..i]).items && key' in After(calls[..j]).items
    requires var a, b := After(calls[..i]).items[key], After(calls[..j]).items[key'];
             a.Row? && b.Row? && a.operationId.Some? && a.operationId == b.operationId
    ensures var a, b := After(calls[..i]).items[key], After(calls[..j]).items[key'];
            key == key' && (a.payload.Some? && b.payload.Some? ==> a.payload == b.payload)
  {
    hide After, ValidRow;
    FreshSoFar(calls, i);
    FreshSoFar(calls, j);
    EntriesAreGenuine(calls[..i]);
    EntriesAreGenuine(calls[..j]);
    assert Genuine(After(calls[..i]), key) && Genuine(After(calls[..j]), key');
    IssuedStays(calls, i, j, After(calls[..i]).items[key].operationId.value);
    assert key == PREFIX + OwnerOf(key) && key' == PREFIX + OwnerOf(key');
  }

  /** A create goes through exactly when the owner is known and either nothing is stored for it,
      the payload is valid and the new id sound, or a readable pending entry is; a record, when
      a readable entry holds that id; a new, when a readable entry is recorded. */
  lemma CallsGoThroughExactlyWhen(owner: string, payload: Payload, operation: string, items: Items, generated: string)
    ensures var key := PREFIX + owner;
            var readable := IsUuid(owner) && key in items && ValidRow(items[key], owner);
            && (Create(owner, payload, items, generated).Ok? <==>
                  || (IsUuid(owner) && key !in items && ValidPayload(payload) && IsUuid(generated))
                  || (readable && items[key].state == "pending"))
            && (Record(owner, operation, items).Ok? <==> readable && items[key].operationId == Some(operation))
            && (New(owner, items).Ok? <==> readable && items[key].state == "recorded")
  {
    hide PositivePaperDecimal, ValidPayload, IsUuid;
  }

  predicate AllHex(s: string) { forall i :: 0 <= i < |s| ==> IsHex(s[i]) }

  /** An id is five groups of hexadecimal digits, of 8, 4, 4, 4 and 12. */
  lemma UuidIsFiveGroups(s: string)
    ensures IsUuid(s) <==>
              && |s| == 36 && s[8] == '-' && s[13] == '-' && s[18] == '-' && s[23] == '-'
              && AllHex(s[..8]) && AllHex(s[9..13]) && AllHex(s[14..18]) && AllHex(s[19..23]) && AllHex(s[24..])
    ensures forall c: char :: IsHex(c) <==> c in "0123456789abcdefABCDEF"
  {
    if |s| == 36 && s[8] == '-' && s[13] == '-' && s[18] == '-' && s[23] == '-'
       && AllHex(s[..8]) && AllHex(s[9..13]) && AllHex(s[14..18]) && AllHex(s[19..23]) && AllHex(s[24..]) {
      forall i | 0 <= i < 36 ensures if i in {8, 13, 18, 23} then s[i] == '-' else IsHex(s[i]) {
        if i < 8 {
          assert s[..8][i] == s[i];
        } else if 8 < i < 13 {
          assert s[9..13][i - 9] == s[i];
        } else if 13 < i < 18 {
          assert s[14..18][i - 14] == s[i];
        } else if 18 < i < 23 {
          assert s[19..23][i - 19] == s[i];
        } else if 23 < i {
          assert s[24..][i - 24] == s[i];
        }
      }
    }
  }

  /** A payload of an order at market, typed by hand. */
  ghost function ByHand(ticker: string, side: string, quantity: string, price: string, venue: string): Payload {
    map["ticker" := Text(ticker), "side" := Text(side), "quantity" := Text(quantity), "estimated_price" := Text(price),
        "source" := Text("manual_demo_ui"), "venue" := Text(venue), "paper_only" := Flag(true), "order_type" := Text("market")]
  }

  /** A payload is accepted exactly when it states these eight fields and no other: a ticker of
      one to fifty characters that is not blank, a side, a storable quantity and price, a venue,
      and the four marks of a manual paper order at market. */
  lemma PayloadIsEightFields(p: Payload)
    ensures ValidPayload(p) <==>
              exists ticker, side, quantity, price, venue ::
                && p == ByHand(ticker, side, quantity, price, venue)
                && 1 <= |ticker| <= 50 && (exists i :: 0 <= i < |ticker| && ticker[i] != ' ')
                && (side == "buy" || side == "sell") && (venue == "paper" || venue == "mock")
                && PositivePaperDecimal(quantity) && PositivePaperDecimal(price)
  {
    hide PositivePaperDecimal;
    if ValidPayload(p) {
      PayloadHasItsFields(p);
      assert p == ByHand(p["ticker"].s, p["side"].s, p["quantity"].s, p["estimated_price"].s, p["venue"].s);
    }
  }

  lemma PayloadHasItsFields(p: Payload)
    requires ValidPayload(p)
    ensures p.Keys == FIELDS
  {
    hide PositivePaperDecimal;
  }

  /** An entry of this version and this owner, under a sound id, with a state and a payload. */
  ghost predicate Entry(row: Stored, owner: string, state: string, payload: Option<Payload>) {
    exists id: string :: IsUuid(id) && row == Row(1, Some(owner), Some(id), state, payload)
  }

  /** A stored entry can be read exactly when it is such an entry, pending with a sound payload,
      recorded or unresolved. */
  lemma ReadableExactlyWhen(row: Stored, owner: string)
    ensures ValidRow(row, owner) <==>
              && row.Row?
              && (|| (row.payload.Some? && ValidPayload(row.payload.value) && Entry(row, owner, "pending", row.payload))
                  || Entry(row, owner, "recorded", row.payload) || Entry(row, owner, "unresolved", row.payload))
  {
    hide IsUuid, ValidPayload, Entry;
    if row.Row? {
      EntryIs(row, owner, "pending");
      EntryIs(row, owner, "recorded");
      EntryIs(row, owner, "unresolved");
    }
  }

  lemma EntryIs(row: Stored, owner: string, state: string)
    requires row.Row?
    ensures Entry(row, owner, state, row.payload) <==>
              && row.version == 1 && row.ownerId == Some(owner) && row.state == state
              && row.operationId.Some? && IsUuid(row.operationId.value)
  {
    hide IsUuid;
    if row.operationId.Some? && IsUuid(row.operationId.value) && row.version == 1 && row.ownerId == Some(owner) && row.state == state {
      assert row == Row(1, Some(owner), Some(row.operationId.value), state, row.payload);
    }
  }

  /** A scrub leaves other keys alone; under the prefix it keeps of a readable entry its owner and
      id, whether it was recorded, and nothing else, and of any other entry nothing at all. */
  lemma ScrubKeepsExactly(items: Items, key: string)
    requires key in items
    ensures Scrub(items).Keys == items.Keys
    ensures !HasPrefix(key) ==> Scrub(items)[key] == items[key]
    ensures HasPrefix(key) ==>
              var owner := key[|PREFIX|..];
              var row := items[key];
              Scrub(items)[key] ==
                if IsUuid(owner) && ValidRow(row, owner)
                then Row(1, row.ownerId, row.operationId, if row.state == "recorded" then "recorded" else "unresolved", None)
                else Row(1, None, None, "invalid", None)
  {
    hide PositivePaperDecimal, ValidPayload, IsUuid;
  }

  /** A retry of a create whose answer was lost gets the entry already made, whatever payload
      and id it brings. */
  lemma RetryReturnsTheSameOperation(owner: string, first: Payload, id: string, items: Items, second: Payload, other: string)
    requires Create(owner, first, items, id).Ok?
    ensures var made := Create(owner, first, items, id).value;
            Create(owner, second, made.1, other) == Ok(made)
  {}

  /** Entry `row`, one call later: still there with its id unless it was recorded. */
  ghost predicate Keeps(row: Stored, key: string, owner: string, items: Items)
    requires row.Row?
  {
    && key in items && ValidRow(items[key], owner)
    && items[key].operationId == row.operationId
    && (row.state == "unresolved" ==> items[key].state in {"unresolved", "recorded"})
    && (row.state == "recorded" ==> items[key].state == "recorded")
  }

  lemma StepKeepsEntry(s: State, c: Call, owner: string)
    requires IsUuid(owner) && PREFIX + owner in s.items && ValidRow(s.items[PREFIX + owner], owner)
    ensures var key := PREFIX + owner;
            Keeps(s.items[key], key, owner, Next(s, c).items)
            || (s.items[key].state == "recorded" && key !in Next(s, c).items)
  {
    var key := PREFIX + owner;
    assert HasPrefix(key) && OwnerOf(key) == owner;
    if !c.DoScrub? && c.owner != owner {
      assert OwnerOf(PREFIX + c.owner) == c.owner;
    }
  }

  /** The entry is in storage after n more calls under this id, and recorded. */
  ghost predicate RecordedAfter(calls: seq<Call>, more: seq<Call>, n: nat, key: string, id: Option<string>)
    requires n <= |more|
  {
    var items := After(calls + more[..n]).items;
    key in items && items[key].Row? && items[key].operationId == id && items[key].state == "recorded"
  }

  /** A readable entry keeps its id through any further calls until it has been recorded, and
      does not go back to pending once its payload was given up: nothing removes or replaces an
      entry that was never recorded. */
  lemma {:induction false} UnrecordedEntriesKeepTheirId(calls: seq<Call>, more: seq<Call>, owner: string)
    requires IsUuid(owner) && PREFIX + owner in After(calls).items
    requires ValidRow(After(calls).items[PREFIX + owner], owner)
    ensures var key := PREFIX + owner;
            var was := After(calls).items[key];
            || Keeps(was, key, owner, After(calls + more).items)
            || exists n: nat :: n <= |more| && RecordedAfter(calls, more, n, key, was.operationId)
  {
    hide Next, ValidRow, IsUuid;
    var key := PREFIX + owner;
    var was := After(calls).items[key];
    ReadableIsRow(was, owner);
    if more == [] {
      assert calls + more == calls;
      KeepsItself(was, key, owner, After(calls).items);
    } else {
      var n := |more| - 1;
      UnrecordedEntriesKeepTheirId(calls, more[..n], owner);
      var s := After(calls + more[..n]);
      assert (calls + more)[..|calls + more| - 1] == calls + more[..n];
      if Keeps(was, key, owner, s.items) {
        StepKeepsEntry(s, more[n], owner);
        if !Keeps(was, key, owner, After(calls + more).items) {
          ReadableIsRow(s.items[key], owner);
          assert RecordedAfter(calls, more, n, key, was.operationId);
        }
      } else {
        var m: nat :| m <= n && RecordedAfter(calls, more[..n], m, key, was.operationId);
        assert more[..n][..m] == more[..m];
        assert RecordedAfter(calls, more, m, key, was.operationId);
      }
    }
  }

  lemma KeepsItself(row: Stored, key: string, owner: string, items: Items)
    requires key in items && items[key] == row && ValidRow(row, owner)
    ensures Keeps(row, key, owner, items)
  {}

  lemma ReadableIsRow(row: Stored, owner: string)
    requires ValidRow(row, owner)
    ensures row.Row?
  {}

  /** After a scrub nothing under the prefix holds a payload, and another scrub changes nothing. */
  lemma ScrubRemovesPayloads(items: Items, key: string)
    requires key in items && HasPrefix(key)
    ensures Scrub(items)[key].Row? && Scrub(items)[key].payload.None?
    ensures Scrub(Scrub(items)) == Scrub(items)
  {
    assert forall k <- items :: Scrub(Scrub(items))[k] == Scrub(items)[k];
  }

  lemma StepKeepsClosed(s: State, c: Call, owner: string)
    requires PREFIX + owner in s.items && Read(owner, s.items).Refused?
    ensures var s' := Next(s, c);
            PREFIX + owner in s'.items && Read(owner, s'.items).Refused?
  {
    var key := PREFIX + owner;
    assert HasPrefix(key) && OwnerOf(key) == owner;
    if !c.DoScrub? && c.owner != owner {
      assert OwnerOf(PREFIX + c.owner) == c.owner;
    }
  }

  function Afterwards(s: State, calls: seq<Call>): State {
    if calls == [] then s else Next(Afterwards(s, calls[..|calls| - 1]), calls[|calls| - 1])
  }

  /** What cannot be read is never removed and can never be read again, whatever is called: no
      create, record or new goes through for its owner. */
  lemma {:induction false} UnreadableEntriesStayClosed(s: State, calls: seq<Call>, owner: string)
    requires PREFIX + owner in s.items && Read(owner, s.items).Refused?
    ensures var items := Afterwards(s, calls).items;
            && PREFIX + owner in items && Read(owner, items).Refused?
            && (forall payload, id :: Create(owner, payload, items, id).Refused?)
            && (forall operation :: Record(owner, operation, items).Refused?) && New(owner, items).Refused?
  {
    hide Next, ValidRow, IsUuid;
    if calls != [] {
      UnreadableEntriesStayClosed(s, calls[..|calls| - 1], owner);
      StepKeepsClosed(Afterwards(s, calls[..|calls| - 1]), calls[|calls| - 1], owner);
    }
  }
}
