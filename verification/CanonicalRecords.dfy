/** The canonical form of bar rows (apps/api/app/backtest/dataset_cache.py:104-126): every
    figure in one spelling, records in time order. */
module CanonicalRecords {
  import opened Outcomes
  import opened Rearranging

  /** A finite decimal as it is written: coef times ten to the exp. */
  datatype Decimal = Decimal(coef: int, exp: int)

  function Scale(x: real, e: int): real
    decreases if e < 0 then -e else e
  {
    if e == 0 then x else if e > 0 then Scale(x * 10.0, e - 1) else Scale(x / 10.0, e + 1)
  }

  function Value(d: Decimal): real { Scale(d.coef as real, d.exp) }

  /** Decimal.normalize: trailing zeros are dropped, and zero is written one way. */
  function Normalize(d: Decimal): Decimal
    decreases if d.coef < 0 then -d.coef else d.coef
  {
    if d.coef == 0 then Decimal(0, 0)
    else if d.coef % 10 == 0 then Normalize(Decimal(d.coef / 10, d.exp + 1))
    else d
  }

  predicate Normal(d: Decimal) { if d.coef == 0 then d.exp == 0 else d.coef % 10 != 0 }

  lemma {:induction false} NormalizeIsNormal(d: Decimal)
    ensures Normal(Normalize(d)) && Normalize(Normalize(d)) == Normalize(d)
    decreases if d.coef < 0 then -d.coef else d.coef
  {
    if d.coef != 0 && d.coef % 10 == 0 {
      NormalizeIsNormal(Decimal(d.coef / 10, d.exp + 1));
    }
  }

  lemma ScaleShift(y: real, e: int)
    ensures Scale(10.0 * y, e) == Scale(y, e + 1)
  {
    assert 10.0 * y / 10.0 == y;
  }

  lemma {:induction false} ScaleOfZero(e: int)
    ensures Scale(0.0, e) == 0.0
    decreases if e < 0 then -e else e
  {
    if e > 0 {
      ScaleOfZero(e - 1);
    } else if e < 0 {
      ScaleOfZero(e + 1);
    }
  }

  lemma {:induction false} ScaleIsInjective(x: real, y: real, e: int)
    requires Scale(x, e) == Scale(y, e)
    ensures x == y
    decreases if e < 0 then -e else e
  {
    if e > 0 {
      ScaleIsInjective(x * 10.0, y * 10.0, e - 1);
    } else if e < 0 {
      ScaleIsInjective(x / 10.0, y / 10.0, e + 1);
    }
  }

  lemma {:induction false} NormalizeKeepsValue(d: Decimal)
    ensures Value(Normalize(d)) == Value(d)
    decreases if d.coef < 0 then -d.coef else d.coef
  {
    if d.coef == 0 {
      ScaleOfZero(d.exp);
    } else if d.coef % 10 == 0 {
      NormalizeKeepsValue(Decimal(d.coef / 10, d.exp + 1));
      ScaleShift((d.coef / 10) as real, d.exp);
      assert 10.0 * (d.coef / 10) as real == d.coef as real;
    }
  }

  /** A figure moved to a smaller exponent gains a factor of ten. */
  lemma {:induction false} Widen(c: int, e: int, k: nat) returns (wide: int)
    ensures Scale(c as real, e) == Scale(wide as real, e - k)
    ensures k > 0 ==> wide % 10 == 0
    ensures k == 0 ==> wide == c
    ensures c != 0 ==> wide != 0
    decreases k
  {
    wide := c;
    if k > 0 {
      ScaleShift(c as real, e - 1);
      assert (10 * c) as real == 10.0 * c as real;
      wide := Widen(10 * c, e - 1, k - 1);
    }
  }

  lemma NormalFormsAreUnique(a: Decimal, b: Decimal)
    requires Normal(a) && Normal(b) && Value(a) == Value(b) && a.exp >= b.exp
    ensures a == b
  {
    var wide := Widen(a.coef, a.exp, a.exp - b.exp);
    ScaleIsInjective(wide as real, b.coef as real, b.exp);
    if a.coef == 0 {
      ScaleOfZero(0);
      ScaleOfZero(b.exp);
      ScaleIsInjective(0.0, b.coef as real, b.exp);
    }
  }

  /** Two figures get the same canonical spelling exactly when they are the same number. */
  lemma OneSpellingPerNumber(a: Decimal, b: Decimal)
    ensures Normalize(a) == Normalize(b) <==> Value(a) == Value(b)
  {
    NormalizeKeepsValue(a);
    NormalizeKeepsValue(b);
    NormalizeIsNormal(a);
    NormalizeIsNormal(b);
    if Value(a) == Value(b) {
      if Normalize(a).exp >= Normalize(b).exp {
        NormalFormsAreUnique(Normalize(a), Normalize(b));
      } else {
        NormalFormsAreUnique(Normalize(b), Normalize(a));
      }
    }
  }

  // ---------------------------------------------------------------- rows

  datatype Row = Row(t: Decimal, o: Decimal, h: Decimal, l: Decimal, c: Decimal, v: Decimal)

  datatype Record = Record(t: int, o: Decimal, h: Decimal, l: Decimal, c: Decimal, v: Decimal)

  function Pow10(n: nat): int { if n == 0 then 1 else 10 * Pow10(n - 1) }

  function RecordOf(row: Row): Option<Record> {
    var t := Normalize(row.t);
    if t.exp < 0 then None
    else Some(Record(t.coef * Pow10(t.exp), Normalize(row.o), Normalize(row.h), Normalize(row.l),
                     Normalize(row.c), Normalize(row.v)))
  }

  function RowOf(r: Record): Row { Row(Decimal(r.t, 0), r.o, r.h, r.l, r.c, r.v) }

  function RowsOf(rs: seq<Record>): seq<Row> {
    seq(|rs|, i requires 0 <= i < |rs| => RowOf(rs[i]))
  }

  /** Stable insertion by time. */
  function Insert(r: Record, rs: seq<Record>): seq<Record> {
    if rs == [] || rs[|rs| - 1].t <= r.t then rs + [r]
    else Insert(r, rs[..|rs| - 1]) + [rs[|rs| - 1]]
  }

  function Sorted(rs: seq<Record>): seq<Record> {
    if rs == [] then [] else Insert(rs[|rs| - 1], Sorted(rs[..|rs| - 1]))
  }

  function RecordsOf(rows: seq<Row>): Option<seq<Record>> {
    if rows == [] then Some([])
    else
      var rest := RecordsOf(rows[..|rows| - 1]);
      var last := RecordOf(rows[|rows| - 1]);
      if rest.None? || last.None? then None else Some(rest.value + [last.value])
  }

  function Canonical(rows: seq<Row>): Result<seq<Record>> {
    var records := RecordsOf(rows);
    if records.None? then Refused("timestamp must be an integer") else Ok(Sorted(records.value))
  }

  /** The source's loop. */
  method CanonicalRecords(rows: seq<Row>) returns (r: Result<seq<Record>>)
    ensures r == Canonical(rows)
  {
    var records: seq<Record> := [];
    for index := 0 to |rows|
      invariant RecordsOf(rows[..index]) == Some(records)
    {
      assert rows[..index + 1][..index] == rows[..index];
      var record := RecordOf(rows[index]);
      if record.None? {
        RefusedPrefix(rows, index + 1);
        return Refused("timestamp must be an integer");
      }
      records := records + [record.value];
    }
    assert rows[..|rows|] == rows;
    r := Ok(Sorted(records));
  }

  lemma {:induction false} RefusedPrefix(rows: seq<Row>, n: nat)
    requires n <= |rows| && RecordsOf(rows[..n]).None?
    ensures RecordsOf(rows).None?
  {
    if n < |rows| {
      assert rows[..|rows| - 1][..n] == rows[..n];
      RefusedPrefix(rows[..|rows| - 1], n);
    } else {
      assert rows[..n] == rows;
    }
  }

  predicate Increasing(rs: seq<Record>) {
    forall i, j :: 0 <= i < j < |rs| ==> rs[i].t < rs[j].t
  }

  ghost predicate CanonicalRecord(r: Record) {
    Normal(r.o) && Normal(r.h) && Normal(r.l) && Normal(r.c) && Normal(r.v)
  }

  lemma {:induction false} SortedOfIncreasing(rs: seq<Record>)
    requires Increasing(rs)
    ensures Sorted(rs) == rs
  {
    if rs != [] {
      var n := |rs| - 1;
      SortedOfIncreasing(rs[..n]);
      assert n > 0 ==> rs[..n][n - 1].t <= rs[n].t;
      assert rs == rs[..n] + [rs[n]];
    }
  }

  lemma {:induction false} IntegerOf(coef: int)
    ensures var d := Normalize(Decimal(coef, 0)); d.exp >= 0 && d.coef * Pow10(d.exp) == coef
  {
    IntegerKept(coef, 0);
  }

  lemma {:induction false} IntegerKept(coef: int, e: nat)
    ensures var d := Normalize(Decimal(coef, e)); d.exp >= 0 && d.coef * Pow10(d.exp) == coef * Pow10(e)
    decreases if coef < 0 then -coef else coef
  {
    if coef != 0 && coef % 10 == 0 {
      IntegerKept(coef / 10, e + 1);
      assert coef / 10 * (10 * Pow10(e)) == coef * Pow10(e);
    }
  }

  lemma NormalIsFixed(d: Decimal)
    requires Normal(d)
    ensures Normalize(d) == d
  {}

  lemma CanonicalRecordKept(r: Record)
    requires CanonicalRecord(r)
    ensures RecordOf(RowOf(r)) == Some(r)
  {
    hide Pow10, Normalize;
    IntegerOf(r.t);
    NormalIsFixed(r.o);
    NormalIsFixed(r.h);
    NormalIsFixed(r.l);
    NormalIsFixed(r.c);
    NormalIsFixed(r.v);
  }

  lemma {:induction false} RecordsOfCanonical(rs: seq<Record>)
    requires forall r <- rs :: CanonicalRecord(r)
    ensures RecordsOf(RowsOf(rs)) == Some(rs)
  {
    if rs != [] {
      var n := |rs| - 1;
      RecordsOfCanonical(rs[..n]);
      assert RowsOf(rs)[..n] == RowsOf(rs[..n]);
      CanonicalRecordKept(rs[n]);
      assert rs == rs[..n] + [rs[n]];
    }
  }

  /** Canonical records are their own canonical form. */
  lemma CanonicalIsIdempotent(rs: seq<Record>)
    requires Increasing(rs) && forall r <- rs :: CanonicalRecord(r)
    ensures Canonical(RowsOf(rs)) == Ok(rs)
  {
    RecordsOfCanonical(rs);
    SortedOfIncreasing(rs);
  }

  lemma {:induction false} InsertKeepsMembers(r: Record, rs: seq<Record>)
    ensures multiset(Insert(r, rs)) == multiset(rs) + multiset{r}
  {
    if rs != [] && rs[|rs| - 1].t > r.t {
      InsertKeepsMembers(r, rs[..|rs| - 1]);
      assert rs == rs[..|rs| - 1] + [rs[|rs| - 1]];
    }
  }

  ghost predicate InOrder(rs: seq<Record>) {
    forall i, j :: 0 <= i < j < |rs| ==> rs[i].t <= rs[j].t
  }

  lemma {:induction false} InsertKeepsOrder(r: Record, rs: seq<Record>)
    requires InOrder(rs)
    ensures InOrder(Insert(r, rs))
  {
    if rs != [] && rs[|rs| - 1].t > r.t {
      var init := rs[..|rs| - 1];
      InsertKeepsOrder(r, init);
      InsertKeepsMembers(r, init);
      var more := Insert(r, init);
      forall i | 0 <= i < |more| ensures more[i].t <= rs[|rs| - 1].t {
        assert more[i] in multiset(more);
        assert more[i] == r || more[i] in init;
      }
    }
  }

  /** Sorting rearranges, and leaves the records in time order. */
  lemma {:induction false} SortedSorts(rs: seq<Record>)
    ensures multiset(Sorted(rs)) == multiset(rs) && InOrder(Sorted(rs))
  {
    if rs != [] {
      var init := rs[..|rs| - 1];
      SortedSorts(init);
      InsertKeepsMembers(rs[|rs| - 1], Sorted(init));
      InsertKeepsOrder(rs[|rs| - 1], Sorted(init));
      assert rs == init + [rs[|rs| - 1]];
    }
  }

  lemma {:induction false} IncreasingIsUnique(a: seq<Record>, b: seq<Record>)
    requires multiset(a) == multiset(b) && Increasing(a) && InOrder(b)
    ensures a == b
  {
    SameMembers(a, b);
    if a != [] {
      var n := |a| - 1;
      SameLast(a, b);
      LastOf(a);
      LastOf(b);
      IncreasingIsUnique(a[..n], b[..n]);
    }
  }

  lemma SameLast(a: seq<Record>, b: seq<Record>)
    requires multiset(a) == multiset(b) && Increasing(a) && InOrder(b) && a != [] && |a| == |b|
    ensures a[|a| - 1] == b[|b| - 1]
  {
    SameMembers(a, b);
    var n := |a| - 1;
    assert a[n] in b && b[n] in a;
    var i :| 0 <= i < |b| && b[i] == a[n];
    var j :| 0 <= j < |a| && a[j] == b[n];
    assert a[n].t <= b[n].t;
  }

  lemma {:induction false} RecordsOfEqualNumbers(a: seq<Row>, b: seq<Row>)
    requires |a| == |b| && forall i :: 0 <= i < |a| ==> SameNumbers(a[i], b[i])
    ensures RecordsOf(a) == RecordsOf(b)
  {
    if a != [] {
      var n := |a| - 1;
      RecordsOfEqualNumbers(a[..n], b[..n]);
      assert SameNumbers(a[n], b[n]);
      OneSpellingPerNumber(a[n].t, b[n].t);
      OneSpellingPerNumber(a[n].o, b[n].o);
      OneSpellingPerNumber(a[n].h, b[n].h);
      OneSpellingPerNumber(a[n].l, b[n].l);
      OneSpellingPerNumber(a[n].c, b[n].c);
      OneSpellingPerNumber(a[n].v, b[n].v);
    }
  }

  ghost predicate SameNumbers(a: Row, b: Row) {
    && Value(a.t) == Value(b.t) && Value(a.o) == Value(b.o) && Value(a.h) == Value(b.h)
    && Value(a.l) == Value(b.l) && Value(a.c) == Value(b.c) && Value(a.v) == Value(b.v)
  }

  /** Rows that state the same numbers, spelled differently and in any order, have one
      canonical form, so the same content identity, whenever their times are distinct. */
  lemma CanonicalIgnoresSpellingAndOrder(a: seq<Row>, b: seq<Row>, spelled: seq<Row>)
    requires |a| == |spelled| && forall i :: 0 <= i < |a| ==> SameNumbers(a[i], spelled[i])
    requires multiset(b) == multiset(spelled)
    requires Canonical(a).Ok? && Increasing(Canonical(a).value)
    ensures Canonical(b) == Canonical(a)
  {
    RecordsOfEqualNumbers(a, spelled);
    RecordsRearranged(spelled, b);
    SortedSorts(RecordsOf(spelled).value);
    SortedSorts(RecordsOf(b).value);
    IncreasingIsUnique(Canonical(a).value, Sorted(RecordsOf(b).value));
  }

  lemma {:induction false} RecordsByIndex(rows: seq<Row>)
    ensures RecordsOf(rows).Some? <==> forall row <- rows :: RecordOf(row).Some?
    ensures RecordsOf(rows).Some? ==>
              |RecordsOf(rows).value| == |rows|
              && forall i :: 0 <= i < |rows| ==> RecordOf(rows[i]) == Some(RecordsOf(rows).value[i])
  {
    hide RecordOf;
    if rows != [] {
      RecordsByIndex(rows[..|rows| - 1]);
      assert rows == rows[..|rows| - 1] + [rows[|rows| - 1]];
    }
  }

  lemma RecordsRearranged(a: seq<Row>, b: seq<Row>)
    requires multiset(a) == multiset(b) && RecordsOf(a).Some?
    ensures RecordsOf(b).Some? && multiset(RecordsOf(a).value) == multiset(RecordsOf(b).value)
  {
    hide RecordOf, RecordsOf;
    RecordsByIndex(a);
    RecordsByIndex(b);
    SameMembers(a, b);
    var zero := Decimal(0, 0);
    var f := row => if RecordOf(row).Some? then RecordOf(row).value else Record(0, zero, zero, zero, zero, zero);
    ImageRearranged(a, b, RecordsOf(a).value, RecordsOf(b).value, f);
  }

  lemma {:induction false} TimeOf(coef: int, exp: nat)
    ensures Scale(coef as real, exp) == (coef * Pow10(exp)) as real
    decreases exp
  {
    if exp > 0 {
      assert coef as real * 10.0 == (coef * 10) as real;
      TimeOf(coef * 10, exp - 1);
      assert coef * 10 * Pow10(exp - 1) == coef * Pow10(exp);
    }
  }

  lemma {:induction false} NormalizingRaises(d: Decimal)
    ensures d.exp >= 0 ==> Normalize(d).exp >= 0
    decreases if d.coef < 0 then -d.coef else d.coef
  {
    if d.coef != 0 && d.coef % 10 == 0 {
      NormalizingRaises(Decimal(d.coef / 10, d.exp + 1));
    }
  }

  /** One row, one record: it states the same time and the same five figures, each in its own
      column; a row is refused exactly when its time is no whole number. */
  lemma RecordStatesItsRow(row: Row)
    ensures RecordOf(row).None? <==> forall k: int :: Value(Decimal(k, 0)) != Value(row.t)
    ensures RecordOf(row).Some? ==>
              var r := RecordOf(row).value;
              && r.t as real == Value(row.t)
              && Value(r.o) == Value(row.o) && Value(r.h) == Value(row.h) && Value(r.l) == Value(row.l)
              && Value(r.c) == Value(row.c) && Value(r.v) == Value(row.v)
  {
    hide Scale;
    NormalizeKeepsValue(row.t);
    NormalizeKeepsValue(row.o);
    NormalizeKeepsValue(row.h);
    NormalizeKeepsValue(row.l);
    NormalizeKeepsValue(row.c);
    NormalizeKeepsValue(row.v);
    if Normalize(row.t).exp >= 0 {
      TimeOf(Normalize(row.t).coef, Normalize(row.t).exp);
      TimeOf(RecordOf(row).value.t, 0);
      assert Value(Decimal(RecordOf(row).value.t, 0)) == Value(row.t);
    } else {
      forall k: int ensures Value(Decimal(k, 0)) != Value(row.t) {
        NormalizingRaises(Decimal(k, 0));
        OneSpellingPerNumber(Decimal(k, 0), row.t);
      }
    }
  }

  /** Canonicalising loses and invents nothing: the records are those of the rows, in time order. */
  lemma CanonicalIsTheRows(rows: seq<Row>)
    ensures Canonical(rows).Ok? <==> forall row <- rows :: RecordOf(row).Some?
    ensures Canonical(rows).Ok? ==>
              && |Canonical(rows).value| == |rows| && InOrder(Canonical(rows).value)
              && exists rs: seq<Record> ::
                   && |rs| == |rows| && multiset(rs) == multiset(Canonical(rows).value)
                   && forall i :: 0 <= i < |rows| ==> RecordOf(rows[i]) == Some(rs[i])
  {
    hide RecordOf;
    RecordsByIndex(rows);
    if RecordsOf(rows).Some? {
      var rs := RecordsOf(rows).value;
      SortedSorts(rs);
      assert |Sorted(rs)| == |multiset(Sorted(rs))| == |multiset(rs)| == |rs|;
    }
  }
}
